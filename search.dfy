/**
 * Candidate selection: which DanDanPlay episode id and which Bilibili `cid`
 * the importers fetch comments for. Every HTTP reply is a parameter; the
 * Bilibili search and detail replies are functions of the URL and of the
 * season id so that the contracts can say which request was made.
 */
module Search {
  import opened Common
  import opened Text
  import opened Wbi

  // ----- DanDanPlay -----

  /** One entry of an anime's `episodes`; None is `undefined`. */
  datatype Episode = Episode(episodeTitle: Option<string>, episodeNo: Option<Prim>, episodeId: Option<Prim>)

  /** One entry of `animes`: its `episodes`, None when that is not an array. */
  datatype Anime = Anime(episodes: Option<seq<Episode>>)

  predicate OptTruthy(v: Option<Prim>) {
    v.Some? && PrimTruthy(v.value)
  }

  /**
   * The `find` predicate for episode `n` (one-based): the title contains
   * `第n集`, `第n话` or `n`, or `episodeNo === n`.
   */
  predicate EpisodeMatches(e: Episode, n: int) {
    var d := IntToDecimal(n);
    (e.episodeTitle.Some?
      && (Contains(e.episodeTitle.value, "第" + d + "集")
        || Contains(e.episodeTitle.value, "第" + d + "话")
        || Contains(e.episodeTitle.value, d)))
    || e.episodeNo == Some(PNum(n))
  }

  /** `eps.find(...)`: the first matching episode. */
  function FindEpisode(eps: seq<Episode>, n: int): Option<Episode> {
    if eps == [] then None
    else if EpisodeMatches(eps[0], n) then Some(eps[0])
    else FindEpisode(eps[1..], n)
  }

  function EpisodesOf(a: Anime): seq<Episode> {
    a.episodes.GetOr([])
  }

  /** What one candidate yields: the id of its first matching episode, when that id is truthy. */
  function AnimeHit(a: Anime, n: int): Option<string> {
    var found := FindEpisode(EpisodesOf(a), n);
    if found.Some? && OptTruthy(found.value.episodeId) then Some(PrimText(found.value.episodeId.value)) else None
  }

  /** The `for` scan over the candidates: the first candidate that yields an id. */
  function ScanAnimes(animes: seq<Anime>, n: int): Option<string> {
    if animes == [] then None
    else if AnimeHit(animes[0], n).Some? then AnimeHit(animes[0], n)
    else ScanAnimes(animes[1..], n)
  }

  /** The fallback: a single candidate with a single episode whose id is truthy. */
  function Fallback(animes: seq<Anime>): Option<string> {
    if |animes| == 1 && animes[0].episodes.Some? && |animes[0].episodes.value| == 1
      && OptTruthy(animes[0].episodes.value[0].episodeId)
    then Some(PrimText(animes[0].episodes.value[0].episodeId.value))
    else None
  }

  /**
   * `findDanDanEpisodeId(title, n)`: `resp` is the search reply (`animes`,
   * `[]` when missing). A failed request throws.
   */
  function DanDanEpisodeId(title: string, n: int, resp: Response<seq<Anime>>): Fetch<Option<string>> {
    if Blank(title) then Ok(None)
    else
      match resp
      case HttpError(status) => Failed("DanDanPlay search error: " + IntToDecimal(status))
      case NetworkError(message) => Failed(message)
      case Reply(animes) =>
        if animes == [] then Ok(None)
        else if ScanAnimes(animes, n).Some? then Ok(ScanAnimes(animes, n))
        else Ok(Fallback(animes))
  }

  /** The imperative scan, with an early return from the loop. */
  method FindDanDanEpisodeId(title: string, n: int, resp: Response<seq<Anime>>) returns (r: Fetch<Option<string>>)
    ensures r == DanDanEpisodeId(title, n, resp)
  {
    var q := Trim(title);
    if q == [] {
      return Ok(None);
    }
    if resp.HttpError? {
      return Failed("DanDanPlay search error: " + IntToDecimal(resp.status));
    }
    if resp.NetworkError? {
      return Failed(resp.message);
    }
    var animes := resp.body;
    if |animes| == 0 {
      return Ok(None);
    }
    for i := 0 to |animes|
      invariant ScanAnimes(animes[i..], n) == ScanAnimes(animes, n)
    {
      var eps := if animes[i].episodes.Some? then animes[i].episodes.value else [];
      var found := FindEpisode(eps, n);
      if found.Some? && OptTruthy(found.value.episodeId) {
        return Ok(Some(PrimText(found.value.episodeId.value)));
      }
      assert animes[i..][1..] == animes[i + 1..];
    }
    assert animes[|animes|..] == [];
    if |animes| == 1 {
      var eps := animes[0].episodes.GetOr([]);
      if |eps| == 1 && OptTruthy(eps[0].episodeId) {
        return Ok(Some(PrimText(eps[0].episodeId.value)));
      }
    }
    return Ok(None);
  }

  /** The scan returns what the first candidate that yields anything yields. */
  lemma {:induction false} ScanPicksFirst(animes: seq<Anime>, n: int, i: nat)
    requires i < |animes| && AnimeHit(animes[i], n).Some?
    requires forall j | 0 <= j < i :: AnimeHit(animes[j], n).None?
    ensures ScanAnimes(animes, n) == AnimeHit(animes[i], n)
  {
    if i > 0 {
      ScanPicksFirst(animes[1..], n, i - 1);
    }
  }

  /** The scan only returns an id that some candidate yields, and returns one whenever a candidate yields one. */
  lemma {:induction false} ScanSound(animes: seq<Anime>, n: int)
    ensures ScanAnimes(animes, n).Some? ==> exists i | 0 <= i < |animes| :: AnimeHit(animes[i], n) == ScanAnimes(animes, n)
    ensures ScanAnimes(animes, n).None? ==> forall i | 0 <= i < |animes| :: AnimeHit(animes[i], n).None?
  {
    if animes != [] {
      ScanSound(animes[1..], n);
      if AnimeHit(animes[0], n).None? {
        forall i | 0 <= i < |animes|
          ensures AnimeHit(animes[i], n).None? || exists j | 0 <= j < |animes[1..]| :: animes[1..][j] == animes[i]
        {
          if i > 0 { assert animes[1..][i - 1] == animes[i]; }
        }
      }
    }
  }

  /** `find` returns the first matching episode of the list. */
  lemma {:induction false} FindEpisodeFirst(eps: seq<Episode>, n: int)
    ensures FindEpisode(eps, n).Some? ==>
      exists k | 0 <= k < |eps| :: eps[k] == FindEpisode(eps, n).value && EpisodeMatches(eps[k], n)
        && forall j | 0 <= j < k :: !EpisodeMatches(eps[j], n)
    ensures FindEpisode(eps, n).None? ==> forall k | 0 <= k < |eps| :: !EpisodeMatches(eps[k], n)
  {
    if eps != [] && !EpisodeMatches(eps[0], n) {
      FindEpisodeFirst(eps[1..], n);
      if FindEpisode(eps, n).Some? {
        var k :| 0 <= k < |eps[1..]| && eps[1..][k] == FindEpisode(eps, n).value && EpisodeMatches(eps[1..][k], n)
          && forall j | 0 <= j < k :: !EpisodeMatches(eps[1..][j], n);
        assert eps[k + 1] == eps[1..][k];
        forall j | 0 <= j < k + 1
          ensures !EpisodeMatches(eps[j], n)
        {
          if j > 0 { assert eps[j] == eps[1..][j - 1]; }
        }
      } else {
        forall k | 0 <= k < |eps|
          ensures !EpisodeMatches(eps[k], n)
        {
          if k > 0 { assert eps[k] == eps[1..][k - 1]; }
        }
      }
    }
  }

  lemma {:induction false} ContainsAt(s: string, k: nat, part: string)
    requires k <= |s| && part <= s[k..]
    ensures Contains(s, part)
  {
    if k > 0 {
      assert s[1..][k - 1..] == s[k..];
      ContainsAt(s[1..], k - 1, part);
    }
  }

  lemma {:induction false} ContainsInner(s: string, a: string, part: string, b: string)
    requires Contains(s, a + part + b)
    ensures Contains(s, part)
  {
    if a + part + b <= s {
      assert part <= s[|a|..] by {
        assert s[|a|..|a| + |part|] == (a + part + b)[|a|..|a| + |part|];
      }
      ContainsAt(s, |a|, part);
    } else {
      ContainsInner(s[1..], a, part, b);
    }
  }

  /**
   * The two `第…` patterns add nothing: a title containing either contains the
   * bare number, so an episode matches exactly when its title contains the
   * decimal number or its `episodeNo` is the number.
   */
  lemma MatchIsSubstring(e: Episode, n: int)
    ensures EpisodeMatches(e, n) <==>
      (e.episodeTitle.Some? && Contains(e.episodeTitle.value, IntToDecimal(n))) || e.episodeNo == Some(PNum(n))
  {
    var d := IntToDecimal(n);
    if e.episodeTitle.Some? {
      var t := e.episodeTitle.value;
      if Contains(t, "第" + d + "集") {
        ContainsInner(t, "第", d, "集");
      }
      if Contains(t, "第" + d + "话") {
        ContainsInner(t, "第", d, "话");
      }
    }
  }

  /**
   * The substring test over-matches: for episode 1, an anime listing `第13集`
   * before `第1集` yields the id of `第13集`.
   */
  lemma ThirteenMatchesOne(id13: Prim, id1: Prim)
    requires PrimTruthy(id13)
    ensures ScanAnimes([Anime(Some([Episode(Some("第13集"), None, Some(id13)), Episode(Some("第1集"), None, Some(id1))]))], 1)
      == Some(PrimText(id13))
  {
    var t := "第13集";
    assert IntToDecimal(1) == "1";
    assert "1" <= t[1..];
    ContainsAt(t, 1, "1");
  }

  /**
   * What `findDanDanEpisodeId` can return: None for a blank title or no
   * candidates; otherwise an id that the first yielding candidate's first
   * matching episode carries, or, failing that, the id of the only episode of
   * the only candidate.
   */
  lemma DanDanOutcomes(title: string, n: int, animes: seq<Anime>)
    ensures Blank(title) ==> DanDanEpisodeId(title, n, Reply(animes)) == Ok(None)
    ensures animes == [] ==> DanDanEpisodeId(title, n, Reply(animes)) == Ok(None)
    ensures !Blank(title) && ScanAnimes(animes, n).None? && DanDanEpisodeId(title, n, Reply(animes)).value.Some? ==>
      |animes| == 1 && |EpisodesOf(animes[0])| == 1
    ensures !Blank(title) && ScanAnimes(animes, n).Some? ==>
      exists i | 0 <= i < |animes| :: (DanDanEpisodeId(title, n, Reply(animes)).value == AnimeHit(animes[i], n)
        && forall j | 0 <= j < i :: AnimeHit(animes[j], n).None?)
  {
    ScanSound(animes, n);
    if !Blank(title) && ScanAnimes(animes, n).Some? {
      FirstHit(animes, n);
    }
  }

  lemma {:induction false} FirstHit(animes: seq<Anime>, n: int)
    requires ScanAnimes(animes, n).Some?
    ensures exists i | 0 <= i < |animes| :: (ScanAnimes(animes, n) == AnimeHit(animes[i], n)
      && forall j | 0 <= j < i :: AnimeHit(animes[j], n).None?)
  {
    if AnimeHit(animes[0], n).None? {
      FirstHit(animes[1..], n);
      var i :| 0 <= i < |animes[1..]| && ScanAnimes(animes[1..], n) == AnimeHit(animes[1..][i], n)
        && forall j | 0 <= j < i :: AnimeHit(animes[1..][j], n).None?;
      assert animes[i + 1] == animes[1..][i];
      forall j | 0 <= j < i + 1
        ensures AnimeHit(animes[j], n).None?
      {
        if j > 0 { assert animes[j] == animes[1..][j - 1]; }
      }
    } else {
      assert ScanAnimes(animes, n) == AnimeHit(animes[0], n);
    }
  }

  // ----- Bilibili -----

  /** One search result; None is `undefined` or `null`. */
  datatype BiliResult = BiliResult(seasonId: Option<Prim>, mediaId: Option<Prim>, pubdate: Option<Prim>, pubtime: Option<Prim>)

  /** One entry of the season's `episodes`. */
  datatype BiliEpisode = BiliEpisode(cid: Option<Prim>)

  /** The library version, which signs its search, and the older copy, which does not. */
  datatype Variant = Signed | Unsigned

  datatype Find<T> = Found(value: T) | NotFound | Threw

  /**
   * The date text the year is looked for in. The library takes
   * `String(r.pubdate ?? r.pubtime ?? '')`; the copy takes
   * `r.pubdate || r.pubtime || ''`, and `includes` throws when that is not a
   * string (None here).
   */
  function PubText(variant: Variant, r: BiliResult): Option<string> {
    match variant
    case Signed =>
      Some(if r.pubdate.Some? then PrimText(r.pubdate.value) else if r.pubtime.Some? then PrimText(r.pubtime.value) else "")
    case Unsigned =>
      var v := if OptTruthy(r.pubdate) then r.pubdate else if OptTruthy(r.pubtime) then r.pubtime else Some(PStr(""));
      if v.value.PStr? then Some(v.value.s) else None
  }

  /** `results.find(r => pubdate.includes(yearText))`. */
  function FindYear(variant: Variant, results: seq<BiliResult>, yearText: string): Find<BiliResult> {
    if results == [] then NotFound
    else
      var pub := PubText(variant, results[0]);
      if pub.None? then Threw
      else if Contains(pub.value, yearText) then Found(results[0])
      else FindYear(variant, results[1..], yearText)
  }

  /** `bestMatch`: `results[0]`, replaced by the first result dated in the year when a year is given. */
  function BestMatch(variant: Variant, results: seq<BiliResult>, year: Option<string>): Find<BiliResult>
    requires results != []
  {
    if !Truthy(year) then Found(results[0])
    else
      match FindYear(variant, results, NumberText(ParseIntJs(year.value)))
      case Found(r) => Found(r)
      case NotFound => Found(results[0])
      case Threw => Threw
  }

  /** `season_id || media_id`, when truthy. */
  function SeasonOf(r: BiliResult): Option<Prim> {
    if OptTruthy(r.seasonId) then r.seasonId
    else if OptTruthy(r.mediaId) then r.mediaId
    else None
  }

  /** The `cid` of episode `episode` (zero-based), or of the first episode when none is given. */
  function CidOf(detail: Response<seq<BiliEpisode>>, episode: Option<int>): Option<string> {
    if !detail.Reply? || detail.body == [] then None
    else
      var eps := detail.body;
      if episode.Some? then
        if 0 <= episode.value < |eps| && OptTruthy(eps[episode.value].cid) then Some(PrimText(eps[episode.value].cid.value))
        else None
      else if OptTruthy(eps[0].cid) then Some(PrimText(eps[0].cid.value))
      else None
  }

  /**
   * Everything after the search request: `search` is its reply (the `result`
   * array, `[]` when missing) and `detailOf` gives the detail reply for a
   * season id. Every failure, a throw included, is None.
   */
  function SelectCid(variant: Variant, search: Response<seq<BiliResult>>, year: Option<string>, episode: Option<int>,
                     detailOf: string -> Response<seq<BiliEpisode>>): Option<string> {
    if !search.Reply? || search.body == [] then None
    else
      var best := BestMatch(variant, search.body, year);
      if !best.Found? || SeasonOf(best.value).None? then None
      else CidOf(detailOf(PrimText(SeasonOf(best.value).value)), episode)
  }

  const SearchBase := "https://api.bilibili.com/x/web-interface/wbi/search/type"
  const UnsignedSearchBase := "https://api.bilibili.com/x/web-interface/search/type"

  /** The raw search parameters, `{keyword: q, search_type: 'media_bangumi'}`. */
  function SearchParams(q: string): Params {
    [("keyword", PStr(q)), ("search_type", PStr("media_bangumi"))]
  }

  /** The signed search URL the library requests. */
  function SignedSearchUrl(q: string, keys: Option<WbiKeys>, nowMs: nat, md5: string -> string, encode: string -> string): string {
    SearchBase + "?" + BuildQuery(SignedParams(SearchParams(q), keys, nowMs, md5), encode)
  }

  /** The copy's search URL, `keyword=${encodeURIComponent(q)}&search_type=media_bangumi`. */
  function UnsignedSearchUrl(q: string, encode: string -> string): string {
    UnsignedSearchBase + "?keyword=" + encode(q) + "&search_type=media_bangumi"
  }

  /**
   * What `searchBilibiliCid` in `danmakuImport.ts` reads besides its
   * arguments: `now` for the key cache's clock, `nav` for the nav reply on a
   * cache miss, `signNowMs` for the clock `signWbiParams` reads, `md5`,
   * `encodeURIComponent`, the search reply for a URL and the detail reply for
   * a season id.
   */
  datatype SearchEnv = SearchEnv(
    now: int,
    nav: Response<NavImages>,
    signNowMs: nat,
    md5: string -> string,
    encode: string -> string,
    searchAt: string -> Response<seq<BiliResult>>,
    detailOf: string -> Response<seq<BiliEpisode>>)

  /** The `cid` the library's search yields with the key cache in state `cached`. */
  function LibSearchCid(cached: Option<CachedKeys>, title: string, year: Option<string>, episode: Option<int>, env: SearchEnv): Option<string> {
    if Blank(title) then None
    else
      var url := SignedSearchUrl(Trim(title), KeysServed(cached, env.now, env.nav), env.signNowMs, env.md5, env.encode);
      SelectCid(Signed, env.searchAt(url), year, episode, env.detailOf)
  }

  /** The key cache after a search: untouched for a blank title, otherwise as `getWbiKeys` leaves it. */
  function CacheAfterSearch(cached: Option<CachedKeys>, title: string, env: SearchEnv): Option<CachedKeys> {
    if Blank(title) then cached else CacheAfter(cached, env.now, env.nav)
  }

  /**
   * `searchBilibiliCid` in `danmakuImport.ts`: a blank title stops before the
   * key cache is consulted; otherwise the keys come from the shared cache and
   * sign the search request.
   */
  method SearchBilibiliCid(cache: WbiKeyCache, title: string, year: Option<string>, episode: Option<int>, env: SearchEnv)
    returns (cid: Option<string>)
    modifies cache
    ensures cid == LibSearchCid(old(cache.cache), title, year, episode, env)
    ensures cache.cache == CacheAfterSearch(old(cache.cache), title, env)
  {
    var q := Trim(title);
    if q == [] {
      return None;
    }
    var keys := cache.GetWbiKeys(env.now, env.nav);
    var raw := SearchParams(q);
    assert UniqueKeys(raw) by {
      assert raw[0].0 != raw[1].0 by { assert raw[0].0[0] != raw[1].0[0]; }
    }
    var signed := SignWbiParams(raw, keys, env.signNowMs, env.md5);
    var searchUrl := SearchBase + "?" + BuildQuery(signed, env.encode);
    var search := env.searchAt(searchUrl);
    cid := SelectCid(Signed, search, year, episode, env.detailOf);
  }

  /** `searchBilibiliCid` in `danmaku.import.ts`: unsigned search, same selection with its own date rule. */
  function SearchBilibiliCidCopy(title: string, year: Option<string>, episode: Option<int>, encode: string -> string,
                                 searchAt: string -> Response<seq<BiliResult>>,
                                 detailOf: string -> Response<seq<BiliEpisode>>): Option<string> {
    if Blank(title) then None
    else SelectCid(Unsigned, searchAt(UnsignedSearchUrl(Trim(title), encode)), year, episode, detailOf)
  }

  /** The year search finds the first result whose date text contains the year, and throws only in the copy. */
  lemma {:induction false} FindYearFirst(variant: Variant, results: seq<BiliResult>, yearText: string, i: nat)
    requires i < |results|
    requires PubText(variant, results[i]).Some? && Contains(PubText(variant, results[i]).value, yearText)
    requires forall j | 0 <= j < i :: PubText(variant, results[j]).Some? && !Contains(PubText(variant, results[j]).value, yearText)
    ensures FindYear(variant, results, yearText) == Found(results[i])
  {
    if i > 0 {
      FindYearFirst(variant, results[1..], yearText, i - 1);
    }
  }

  lemma {:induction false} FindYearNone(variant: Variant, results: seq<BiliResult>, yearText: string)
    requires forall j | 0 <= j < |results| :: PubText(variant, results[j]).Some? && !Contains(PubText(variant, results[j]).value, yearText)
    ensures FindYear(variant, results, yearText) == NotFound
  {
    if results != [] {
      FindYearNone(variant, results[1..], yearText);
    }
  }

  lemma {:induction false} SignedNeverThrows(results: seq<BiliResult>, yearText: string)
    ensures FindYear(Signed, results, yearText) != Threw
  {
    if results != [] {
      SignedNeverThrows(results[1..], yearText);
    }
  }

  /**
   * The library's best match is the first result whose date contains the
   * year, and `results[0]` when no result does or no year is given.
   */
  lemma BestMatchPrefersYear(results: seq<BiliResult>, year: string, i: nat)
    requires year != [] && i < |results|
    requires Contains(PubText(Signed, results[i]).value, NumberText(ParseIntJs(year)))
    requires forall j | 0 <= j < i :: !Contains(PubText(Signed, results[j]).value, NumberText(ParseIntJs(year)))
    ensures BestMatch(Signed, results, Some(year)) == Found(results[i])
  {
    FindYearFirst(Signed, results, NumberText(ParseIntJs(year)), i);
  }

  lemma BestMatchDefault(results: seq<BiliResult>, year: Option<string>)
    requires results != []
    requires Truthy(year) ==> forall j | 0 <= j < |results| :: !Contains(PubText(Signed, results[j]).value, NumberText(ParseIntJs(year.value)))
    ensures BestMatch(Signed, results, year) == Found(results[0])
  {
    if Truthy(year) {
      FindYearNone(Signed, results, NumberText(ParseIntJs(year.value)));
    }
  }

  /**
   * In the copy, a first result with no `pubdate` and a numeric `pubtime`
   * makes `includes` throw, and the whole search returns None whenever a year is given.
   */
  lemma CopyNumericPubtime(search: seq<BiliResult>, year: string, episode: Option<int>,
                           detailOf: string -> Response<seq<BiliEpisode>>, t: int)
    requires search != [] && search[0].pubdate.None? && search[0].pubtime == Some(PNum(t)) && t != 0
    requires year != []
    ensures SelectCid(Unsigned, Reply(search), Some(year), episode, detailOf) == None
  {
  }

  /** With an episode index, the result is that episode's `cid`; an index past the list gives None. */
  lemma CidByIndex(eps: seq<BiliEpisode>, k: int)
    ensures (k < 0 || k >= |eps|) ==> CidOf(Reply(eps), Some(k)) == None
    ensures 0 <= k < |eps| && OptTruthy(eps[k].cid) ==> CidOf(Reply(eps), Some(k)) == Some(PrimText(eps[k].cid.value))
    ensures 0 <= k < |eps| && !OptTruthy(eps[k].cid) ==> CidOf(Reply(eps), Some(k)) == None
  {
  }

  /** A failed search or detail request gives None. */
  lemma FailedRequestsGiveNone(variant: Variant, status: int, message: string, year: Option<string>, episode: Option<int>,
                               detailOf: string -> Response<seq<BiliEpisode>>)
    ensures SelectCid(variant, HttpError(status), year, episode, detailOf) == None
    ensures SelectCid(variant, NetworkError(message), year, episode, detailOf) == None
    ensures CidOf(HttpError(status), episode) == None && CidOf(NetworkError(message), episode) == None
  {
  }

  /** Without keys the library's query is the plain, sorted one: `keyword=…&search_type=media_bangumi`. */
  lemma UnsignedQuery(q: string, nowMs: nat, md5: string -> string, encode: string -> string)
    ensures SignedSearchUrl(q, None, nowMs, md5, encode)
      == SearchBase + "?" + ("keyword" + "=" + encode(q)) + "&" + ("search_type" + "=" + encode("media_bangumi"))
  {
    var ps := SearchParams(q);
    assert StrLe("keyword", "search_type") by {
      assert "keyword"[0] < "search_type"[0];
    }
    assert SortByKey(ps) == ps by {
      assert SortByKey(ps[1..]) == [ps[1]];
    }
    var render := Encoded(encode);
    var parts := Pairs(ps, render);
    PairsAt(ps, render, 0);
    PairsAt(ps, render, 1);
    assert parts == [parts[0], parts[1]];
    assert Encoded(encode)(PStr(q)) == encode(PrimText(PStr(q)));
    var m := "media_bangumi";
    assert Encoded(encode)(PStr(m)) == encode(PrimText(PStr(m)));
    assert render(ps[0].1) == encode(q);
    assert render(ps[1].1) == encode(m);
    assert parts[0] == "keyword" + "=" + encode(q);
    assert parts[1] == "search_type" + "=" + encode("media_bangumi");
    assert SignedParams(ps, None, nowMs, md5) == ps;
    assert BuildQuery(ps, encode) == Join(parts, '&');
    assert Join(parts, '&') == parts[0] + "&" + parts[1] by {
      assert parts[1..] == [parts[1]];
    }
  }
}

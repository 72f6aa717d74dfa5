/**
 * The part of the admin configuration's `DanmakuImport` section that the
 * ensure and trigger routes read, and how they turn a request into the
 * arguments of `ensureEpisodeImported`: the video's override mapping, keyed
 * `source+id`, chooses the provider, the per-episode external id and an alias
 * title; the section's default provider and a route-specific fallback fill in.
 */
module Config {
  import opened Common
  import opened Text
  import opened Ledger

  /** One override: its key, an optional provider, external ids keyed by episode text, an alias title. */
  datatype Mapping = Mapping(
    key: string,
    provider: Option<string>,
    episodes: Option<map<string, string>>,
    aliasTitle: Option<string>)

  /** The fields of `DanmakuImport` the two routes read. */
  datatype DanmakuImport = DanmakuImport(defaultProvider: Option<string>, mappings: Option<seq<Mapping>>)

  /** The key a mapping is stored under. */
  function MappingKey(source: string, id: string): string {
    source + "+" + id
  }

  /** The video's mapping, if the section has one for it. */
  function MappingFor(cfg: Option<DanmakuImport>, source: string, id: string): Option<Mapping> {
    if cfg.None? || cfg.value.mappings.None? then None
    else
      var ms := cfg.value.mappings.value;
      match FirstWhere(ms, (m: Mapping) => m.key == MappingKey(source, id))
      case None => None
      case Some(i) => Some(ms[i])
  }

  /** `map?.provider || danCfg?.defaultProvider || fallback`, then read as a provider name. */
  function ProviderFor(cfg: Option<DanmakuImport>, m: Option<Mapping>, fallback: string): Provider {
    if m.Some? && Truthy(m.value.provider) then ProviderNamed(m.value.provider.value)
    else if cfg.Some? && Truthy(cfg.value.defaultProvider) then ProviderNamed(cfg.value.defaultProvider.value)
    else ProviderNamed(fallback)
  }

  /** `map?.episodes?.[String(episode)]`: the external id stored under the episode's decimal text. */
  function ExternalIdFor(m: Option<Mapping>, episode: int): Option<string> {
    if m.Some? && m.value.episodes.Some? then Lookup(m.value.episodes.value, IntToDecimal(episode)) else None
  }

  /** `map?.aliasTitle || title`. */
  function TitleFor(m: Option<Mapping>, title: Option<string>): Option<string> {
    if m.Some? && Truthy(m.value.aliasTitle) then m.value.aliasTitle else title
  }

  /** The arguments of `ensureEpisodeImported` for one episode, with the route's own fallback provider. */
  function ParamsFor(cfg: Option<DanmakuImport>, source: string, id: string, episode: int, title: Option<string>,
                     fallback: string): EnsureParams
  {
    var m := MappingFor(cfg, source, id);
    EnsureParams(source, id, episode, ProviderFor(cfg, m, fallback), ExternalIdFor(m, episode), TitleFor(m, title))
  }

  // ----- properties -----

  /**
   * The mapping used is the first one whose key is `source+id`; with none,
   * no mapping is used.
   */
  lemma MappingByKey(ms: seq<Mapping>, source: string, id: string, i: nat)
    requires i < |ms| && ms[i].key == MappingKey(source, id)
    requires forall j | 0 <= j < i :: ms[j].key != MappingKey(source, id)
    ensures MappingFor(Some(DanmakuImport(None, Some(ms))), source, id) == Some(ms[i])
  {
    var r := FirstWhere(ms, (m: Mapping) => m.key == MappingKey(source, id));
    assert r.Some?;
    assert r.value == i;
  }

  /**
   * The provider is the mapping's when it names one, else the section's
   * default when it names one, else the route's fallback; the external id
   * and title come from the mapping alone, and the title falls back to the
   * request's.
   */
  lemma Resolution(cfg: Option<DanmakuImport>, source: string, id: string, episode: int, title: Option<string>, fallback: string)
    ensures var m := MappingFor(cfg, source, id);
            var p := ParamsFor(cfg, source, id, episode, title, fallback);
            p.source == source && p.id == id && p.episode == episode
            && (m.Some? && Truthy(m.value.provider) ==> p.provider == ProviderNamed(m.value.provider.value))
            && (!(m.Some? && Truthy(m.value.provider)) && cfg.Some? && Truthy(cfg.value.defaultProvider) ==>
                  p.provider == ProviderNamed(cfg.value.defaultProvider.value))
            && (!(m.Some? && Truthy(m.value.provider)) && !(cfg.Some? && Truthy(cfg.value.defaultProvider)) ==>
                  p.provider == ProviderNamed(fallback))
            && (m.None? ==> p.externalId.None? && p.title == title)
            && (m.Some? && Truthy(m.value.aliasTitle) ==> p.title == m.value.aliasTitle)
  {
  }

  /**
   * The external id is looked up under the episode number as given, in
   * decimal: episode 1 reads the key "1" and episode 0 the key "0", whatever
   * numbering the mapping's author had in mind.
   */
  lemma ExternalIdByDecimalKey(m: Mapping, episode: nat, ids: map<string, string>)
    requires m.episodes == Some(ids)
    ensures ExternalIdFor(Some(m), episode) == Lookup(ids, NatToDigits(episode, 10))
    ensures ExternalIdFor(Some(m), 1) == Lookup(ids, "1")
    ensures ExternalIdFor(Some(m), 0) == Lookup(ids, "0")
  {
    assert NatToDigits(1, 10) == "1" by {
      assert DigitChar(1) == '1';
    }
    assert NatToDigits(0, 10) == "0" by {
      assert DigitChar(0) == '0';
    }
  }
}

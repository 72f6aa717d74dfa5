/**
 * `/api/admin/danmaku`: `GET` shows the configuration's `DanmakuImport`
 * section without its encrypted Bilibili cookie; `POST` merges the body into
 * the section, sets or clears the encrypted cookie, and saves the
 * configuration. The section is handled untyped, as the route does.
 */
module AdminRoute {
  import opened Common
  import opened Text
  import opened Requests

  /** The `DanmakuImport` section as a JSON object. */
  type Section = map<string, Json>

  const CookieField := "bilibiliCookieEncrypted"
  const FlagField := "hasBilibiliCookie"

  /** `config.DanmakuImport || {}`. */
  function SectionOf(di: Option<Section>): Section {
    if di.Some? then di.value else map[]
  }

  /** What `GET` answers: every field but the encrypted cookie, and whether that is set. */
  function AdminView(di: Option<Section>): Section {
    var section := SectionOf(di);
    (section - {CookieField})[FlagField := JBool(JsonTruthy(Lookup(section, CookieField)))]
  }

  /** `process.env.PASSWORD || process.env.USERNAME || 'moontv'`. */
  function Passphrase(password: Option<string>, username: Option<string>): string {
    if Truthy(password) then password.value else if Truthy(username) then username.value else "moontv"
  }

  /** The body's fields other than `cookie` and `clearCookie`; a body that is not an object has none. */
  function Others(body: Json): Section {
    FieldsOf(body) - {"cookie", "clearCookie"}
  }

  /**
   * The new section: the old one shallowly overridden by the other body
   * fields, then the encrypted cookie cleared (a truthy `clearCookie`) or set
   * from a non-blank `cookie` string, trimmed and encrypted with `pass`.
   */
  function Merged(di: Option<Section>, body: Json, pass: string, encrypt: (string, string) -> string): Section {
    var f := FieldsOf(body);
    var next := SectionOf(di) + Others(body);
    if JsonTruthy(Lookup(f, "clearCookie")) then next[CookieField := JStr("")]
    else if "cookie" in f && f["cookie"].JStr? && Trim(f["cookie"].s) != "" then
      next[CookieField := JStr(encrypt(Trim(f["cookie"].s), pass))]
    else next
  }

  datatype AdminReply = Saved | SaveFailed

  /**
   * What the route works on: `live` is the configuration object `getConfig`
   * hands out, `persisted` what the database holds, `cached` the in-memory
   * cache `setCachedConfig` fills, and `saveError` the error a save would
   * throw. Only the `DanmakuImport` section of each is modelled.
   */
  class AdminConfig {
    var live: Option<Section>
    var persisted: Option<Section>
    var cached: Option<Section>
    var saveError: Option<string>

    constructor(section: Option<Section>, saveError0: Option<string>)
      ensures live == section && persisted == section && cached == section && saveError == saveError0
    {
      live := section;
      persisted := section;
      cached := section;
      saveError := saveError0;
    }

    /** `GET`. */
    method Get() returns (view: Section)
      ensures view == AdminView(live)
    {
      view := AdminView(live);
    }

    /**
     * `POST`: the section is replaced on the live object before the save, so
     * a failed save still leaves the merged section there; a successful one
     * also reaches the database and the cache.
     */
    method Post(body: Json, password: Option<string>, username: Option<string>, encrypt: (string, string) -> string)
      returns (reply: AdminReply)
      modifies this
      ensures live == Some(Merged(old(live), body, Passphrase(password, username), encrypt))
      ensures saveError.None? ==> reply == Saved && persisted == live && cached == live
      ensures saveError.Some? ==> reply == SaveFailed && persisted == old(persisted) && cached == old(cached)
      ensures saveError == old(saveError)
    {
      var pass := Passphrase(password, username);
      var next := Merged(live, body, pass, encrypt);
      live := Some(next);
      if saveError.Some? {
        return SaveFailed;
      }
      persisted := live;
      cached := live;
      reply := Saved;
    }
  }

  // ----- properties -----

  /**
   * `GET` never shows the encrypted cookie, reports whether it is set (a
   * non-empty string), and shows every other field unchanged.
   */
  lemma Redaction(di: Option<Section>, k: string)
    ensures CookieField !in AdminView(di)
    ensures CookieField !in SectionOf(di) ==> AdminView(di)[FlagField] == JBool(false)
    ensures di.Some? && CookieField in di.value && di.value[CookieField].JStr? ==>
              AdminView(di)[FlagField] == JBool(di.value[CookieField].s != "")
    ensures k != CookieField && k != FlagField ==>
              (k in AdminView(di) <==> k in SectionOf(di)) && (k in AdminView(di) ==> AdminView(di)[k] == SectionOf(di)[k])
  {
  }

  /**
   * The merge: a field the body sends (other than `cookie` and
   * `clearCookie`) overrides the stored one, any other stored field is kept,
   * and the two cookie keys of the body are never stored.
   */
  lemma MergeRule(di: Option<Section>, body: Json, pass: string, encrypt: (string, string) -> string, k: string)
    requires k != CookieField
    ensures var next := Merged(di, body, pass, encrypt);
            (k != "cookie" && k != "clearCookie" && k in FieldsOf(body) ==> k in next && next[k] == FieldsOf(body)[k])
            && (k !in FieldsOf(body) || k == "cookie" || k == "clearCookie" ==> Lookup(next, k) == Lookup(SectionOf(di), k))
  {
  }

  /**
   * The cookie: a truthy `clearCookie` empties it even when a cookie is
   * sent; otherwise a non-blank cookie string is stored trimmed and
   * encrypted; otherwise the merged value stands, the body's own
   * `bilibiliCookieEncrypted` included.
   */
  lemma CookieRule(di: Option<Section>, body: Json, pass: string, encrypt: (string, string) -> string)
    ensures var f := FieldsOf(body);
            var next := Merged(di, body, pass, encrypt);
            (JsonTruthy(Lookup(f, "clearCookie")) ==> next[CookieField] == JStr(""))
            && (!JsonTruthy(Lookup(f, "clearCookie")) && "cookie" in f && f["cookie"].JStr? && !Blank(f["cookie"].s) ==>
                  next[CookieField] == JStr(encrypt(Trim(f["cookie"].s), pass)))
            && (!JsonTruthy(Lookup(f, "clearCookie")) && !("cookie" in f && f["cookie"].JStr? && !Blank(f["cookie"].s)) ==>
                  Lookup(next, CookieField) == (if CookieField in f then Some(f[CookieField]) else Lookup(SectionOf(di), CookieField)))
  {
  }

  /** After a clear, `GET` reports no cookie; after a set with a non-empty ciphertext, it reports one. */
  lemma ViewAfterPost(di: Option<Section>, body: Json, pass: string, encrypt: (string, string) -> string)
    ensures var f := FieldsOf(body);
            var view := AdminView(Some(Merged(di, body, pass, encrypt)));
            (JsonTruthy(Lookup(f, "clearCookie")) ==> view[FlagField] == JBool(false))
            && (!JsonTruthy(Lookup(f, "clearCookie")) && "cookie" in f && f["cookie"].JStr? && !Blank(f["cookie"].s) &&
                encrypt(Trim(f["cookie"].s), pass) != "" ==>
                  view[FlagField] == JBool(true))
            && CookieField !in view
  {
    CookieRule(di, body, pass, encrypt);
  }

  /** The passphrase falls back from `PASSWORD` to `USERNAME` to "moontv", skipping empty values. */
  lemma PassphraseFallback(password: Option<string>, username: Option<string>)
    ensures Truthy(password) ==> Passphrase(password, username) == password.value
    ensures !Truthy(password) && Truthy(username) ==> Passphrase(password, username) == username.value
    ensures !Truthy(password) && !Truthy(username) ==> Passphrase(password, username) == "moontv"
    ensures Passphrase(password, username) != ""
  {
  }
}

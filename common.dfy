/**
 * Values shared by the whole danmaku import model: optional values, calls that
 * may throw, HTTP replies, the comment item and what is stored about it, the
 * store's key space and the JSON values the configuration routes handle.
 */
module Common {

  datatype Option<+T> = None | Some(value: T) {
    function GetOr(default: T): T {
      if Some? then value else default
    }
  }

  /** A call that either returns a value or throws an error carrying a message. */
  datatype Fetch<+T> = Ok(value: T) | Failed(message: string)

  /**
   * What an outbound HTTP request yields: a decoded body for a 2xx status, a
   * non-2xx status, or a transport error (the request itself threw).
   */
  datatype Response<+T> = Reply(body: T) | HttpError(status: int) | NetworkError(message: string)

  /** A string that JavaScript treats as true: present and non-empty. */
  predicate Truthy(s: Option<string>) {
    s.Some? && s.value != ""
  }

  /** `a || b` on optional strings. */
  function OrElse(a: Option<string>, b: Option<string>): Option<string> {
    if Truthy(a) then a else b
  }

  /** A JSON scalar as the upstream APIs send ids and dates: a string, an integer or a boolean. */
  datatype Prim = PStr(s: string) | PNum(n: int) | PBool(b: bool)

  /** JavaScript truthiness of a scalar. */
  predicate PrimTruthy(v: Prim) {
    match v
    case PStr(s) => s != ""
    case PNum(n) => n != 0
    case PBool(b) => b
  }

  /** The two comment providers; any other configured name is kept as it is. */
  datatype Provider = DanDanPlay | Bilibili | Unlisted(name: string)

  function ProviderNamed(name: string): Provider {
    if name == "dandanplay" then DanDanPlay
    else if name == "bilibili" then Bilibili
    else Unlisted(name)
  }

  /** One overlay comment. `mode` 0 scrolls, 1 is pinned (top or bottom). */
  /**
   * A comment as stored. `text` is the stored `text` field: a string, except
   * that the import route's own DanDanPlay parser copies `comment.m` as it
   * is, so a number stays a number and a missing `m` (None) leaves no `text`
   * field once the member is serialised.
   */
  datatype Item = Item(time: real, text: Option<Prim>, color: Option<string>, mode: Option<int>)

  /** The server-side stamp added when an item is stored. */
  datatype Stamp = ImportedAt(importTime: int) | PostedAt(serverTime: int)

  /** The stored member: the item plus `imported: true, importTime` or `serverTime`. */
  datatype Member = Member(item: Item, stamp: Stamp)

  /** One (score, member) pair of a sorted-set bucket. */
  datatype Entry = Entry(score: real, member: Member)

  /**
   * The store's keys: `danmaku:<source>:<id>:<episode>`,
   * `danmaku:canonical:<slug>:<episode>` and `danmaku:map:<source>:<id>`.
   */
  datatype Key =
    | Bucket(source: string, id: string, episode: int)
    | CanonicalBucket(slug: string, episode: int)
    | MapSlot(source: string, id: string)

  /**
   * The JSON object kept at a `danmaku:map:` key. The import and ensure routes
   * write `{title, year, slug}`; the auto-import route writes
   * `{title, year, seasonId, cid, provider, createdAt}`. Absent fields are None.
   */
  datatype MapRecord = MapRecord(
    title: Option<string>,
    year: Option<string>,
    slug: Option<string>,
    seasonId: Option<string>,
    cid: Option<string>,
    provider: Option<string>,
    createdAt: Option<int>)

  function SlugRecord(title: Option<string>, year: Option<string>, slug: string): MapRecord {
    MapRecord(title, year, Some(slug), None, None, None, None)
  }

  /** A string-store value: parseable JSON holding a record, or text `JSON.parse` rejects. */
  datatype Stored = Record(rec: MapRecord) | Unparsable(raw: string)

  /** JSON values, for the routes that handle untyped request bodies and configuration. */
  datatype Json =
    | JStr(s: string)
    | JNum(n: real)
    | JBool(b: bool)
    | JNull
    | JArray(elems: seq<Json>)
    | JObject(fields: map<string, Json>)

  /** JavaScript truthiness of an optional JSON value (None is `undefined`). */
  predicate JsonTruthy(v: Option<Json>) {
    match v
    case None => false
    case Some(j) =>
      match j
      case JStr(s) => s != ""
      case JNum(n) => n != 0.0
      case JBool(b) => b
      case JNull => false
      case JArray(_) => true
      case JObject(_) => true
  }

  /** `Array.prototype.find` as an index: the first element satisfying `p`. */
  function FirstWhere<T>(xs: seq<T>, p: T -> bool): (r: Option<nat>)
    ensures r.Some? ==> r.value < |xs| && p(xs[r.value]) && forall j | 0 <= j < r.value :: !p(xs[j])
    ensures r.None? <==> forall j | 0 <= j < |xs| :: !p(xs[j])
  {
    if xs == [] then None
    else if p(xs[0]) then Some(0)
    else
      match FirstWhere(xs[1..], p)
      case None => None
      case Some(i) => Some(i + 1)
  }

  function Lookup<K, V>(m: map<K, V>, k: K): Option<V> {
    if k in m then Some(m[k]) else None
  }

  /** A JavaScript number that is an integer and at least 0 (zod's `int().min(0)`). */
  predicate IsIndex(x: real) {
    x >= 0.0 && x == x.Floor as real
  }

  /** The members `zadd` receives for imported items: score = time, stamped as imported at `now`. */
  function ImportedMembers(items: seq<Item>, now: int): seq<Entry> {
    seq(|items|, i requires 0 <= i < |items| => Entry(items[i].time, Member(items[i], ImportedAt(now))))
  }

  /** Appending in two steps is appending the two parts at once. */
  lemma AppendAssoc<T>(a: seq<T>, b: seq<T>, c: seq<T>)
    ensures a + b + c == a + (b + c)
  {
  }
}

/**
 * The comment parsers. Every provider hands over a comma-separated `p` field
 * and a text; the parser reads the time from field 0, the mode from field 1 and
 * the colour from field 2 or field 3, and renders the colour as `#` plus hex.
 * The five parsers in the code base differ in the colour field, in which mode
 * values pin a comment and in how the colour is rendered, which `ParserSpec`
 * carries; the import route's own DanDanPlay parser also splits `comment.p`
 * without `String()` and keeps `comment.m` as it is.
 */
module Comments {
  import opened Common
  import opened Text

  /** One `<d p="…">text</d>` element of a Bilibili XML reply, already matched. */
  datatype Tag = Tag(p: string, text: string)

  /** One element of DanDanPlay's `comments` array; None is `undefined`. */
  datatype DdpComment = DdpComment(p: Option<Prim>, m: Option<Prim>)

  /** Which values of field 1 make a comment pinned (mode 1). */
  datatype ModeRule = FourOrFive | FourOnly

  /**
   * How the colour is rendered: `#` + `toString(16)` padded to six with `0`
   * whatever the number is, or `#` + upper-case padded hex for a non-negative
   * number and `#FFFFFF` otherwise.
   */
  datatype ColourRule = LowerHex | UpperHexOrWhite

  datatype ParserSpec = ParserSpec(colourField: nat, modes: ModeRule, colour: ColourRule)

  /** `fetchFromDanDanPlay` in both library files. */
  const LibDanDanPlay := ParserSpec(2, FourOrFive, LowerHex)
  /** `fetchFromBilibili` in `danmakuImport.ts`: colour from field 3. */
  const LibBilibili := ParserSpec(3, FourOrFive, LowerHex)
  /** `fetchFromBilibili` in `danmaku.import.ts`: colour from field 2 (the font size in Bilibili's layout). */
  const CopyBilibili := ParserSpec(2, FourOrFive, LowerHex)
  /** The import route's own DanDanPlay parser: only 4 pins. */
  const RouteDanDanPlay := ParserSpec(2, FourOnly, LowerHex)
  /** The import route's own Bilibili parser: colour from field 3, white by default. */
  const RouteBilibili := ParserSpec(3, FourOrFive, UpperHexOrWhite)

  // ----- fields -----

  /** `params[k]`: None (`undefined`) past the end. */
  function Field(params: seq<string>, k: nat): Option<string> {
    if k < |params| then Some(params[k]) else None
  }

  /** `parseInt(params[k])`; `parseInt(undefined)` is NaN (None). */
  function IntField(params: seq<string>, k: nat): Option<int> {
    var f := Field(params, k);
    if f.None? then None else ParseIntJs(f.value)
  }

  /** The mode: 1 (pinned) for the pinning values of field 1, 0 (scrolling) for anything else, NaN included. */
  function ModeOf(rule: ModeRule, modeValue: Option<int>): (mode: int)
    ensures mode == 0 || mode == 1
    ensures mode == 1 <==> modeValue == Some(4) || (rule == FourOrFive && modeValue == Some(5))
  {
    if modeValue.Some? && (modeValue.value == 4 || (rule == FourOrFive && modeValue.value == 5)) then 1 else 0
  }

  // ----- colours -----

  /** `x.toString(16)` of what `parseInt` returned: lower-case digits, a minus sign, or `NaN`. */
  function HexText(x: Option<int>): string {
    if x.None? then "NaN"
    else if x.value < 0 then "-" + NatToDigits(-x.value, 16)
    else NatToDigits(x.value, 16)
  }

  /** `#${colorInt.toString(16).padStart(6, '0')}`. */
  function LowerHexColour(x: Option<int>): string {
    "#" + PadStart(HexText(x), 6, '0')
  }

  function UpperAll(s: string): (r: string)
    ensures |r| == |s|
  {
    seq(|s|, i requires 0 <= i < |s| => UpperAscii(s[i]))
  }

  /** `#FFFFFF` unless `colorInt >= 0`, then `#` + the padded hex in upper case. */
  function UpperHexColour(x: Option<int>): string {
    if x.Some? && x.value >= 0 then "#" + UpperAll(PadStart(NatToDigits(x.value, 16), 6, '0'))
    else "#FFFFFF"
  }

  function ColourOf(rule: ColourRule, x: Option<int>): string {
    match rule
    case LowerHex => LowerHexColour(x)
    case UpperHexOrWhite => UpperHexColour(x)
  }

  // ----- one comment -----

  /**
   * One comment from its `p` field and text: time from field 0 through
   * `parseTime` (`parseFloat`), mode from field 1, colour from the spec's field.
   */
  function ParseComment(spec: ParserSpec, p: string, text: Option<Prim>, parseTime: string -> real): Item {
    var params := Split(p, ',');
    Item(parseTime(params[0]), text,
      Some(ColourOf(spec.colour, IntField(params, spec.colourField))),
      Some(ModeOf(spec.modes, IntField(params, 1))))
  }

  /** One item per tag, in document order. */
  function ParseTags(spec: ParserSpec, tags: seq<Tag>, parseTime: string -> real): (r: seq<Item>)
    ensures |r| == |tags|
  {
    seq(|tags|, i requires 0 <= i < |tags| => ParseComment(spec, tags[i].p, Some(PStr(tags[i].text)), parseTime))
  }

  /**
   * The parse loop of `fetchFromBilibili` (both library copies): one `exec`
   * match per iteration, one push per match.
   */
  method ParseXml(spec: ParserSpec, tags: seq<Tag>, parseTime: string -> real) returns (list: seq<Item>)
    ensures list == ParseTags(spec, tags, parseTime)
  {
    list := [];
    var n := 0;
    while n < |tags|
      invariant 0 <= n <= |tags|
      invariant list == ParseTags(spec, tags[..n], parseTime)
    {
      var params := Split(tags[n].p, ',');
      var time := parseTime(params[0]);
      var mode := ModeOf(spec.modes, IntField(params, 1));
      var color := ColourOf(spec.colour, IntField(params, spec.colourField));
      list := list + [Item(time, Some(PStr(tags[n].text)), Some(color), Some(mode))];
      n := n + 1;
      assert tags[..n] == tags[..n - 1] + [tags[n - 1]];
    }
    assert tags[..n] == tags;
  }

  /** How many items carry colour `c`. */
  function CountColour(items: seq<Item>, c: string): nat {
    if items == [] then 0
    else CountColour(items[..|items| - 1], c) + (if items[|items| - 1].color == Some(c) then 1 else 0)
  }

  /**
   * The import route's Bilibili parse loop: besides pushing each item it counts
   * the items per colour in `colorStats`.
   */
  method ParseXmlWithStats(tags: seq<Tag>, parseTime: string -> real) returns (danmakus: seq<Item>, colorStats: map<string, nat>)
    ensures danmakus == ParseTags(RouteBilibili, tags, parseTime)
    ensures Tallies(colorStats, danmakus)
  {
    danmakus := [];
    colorStats := map[];
    var n := 0;
    while n < |tags|
      invariant 0 <= n <= |tags|
      invariant danmakus == ParseTags(RouteBilibili, tags[..n], parseTime)
      invariant Tallies(colorStats, danmakus)
    {
      var item, color := ParseRouteTag(tags[n], parseTime);
      ParseTagsSnoc(RouteBilibili, tags, n, parseTime);
      StatsStep(danmakus, colorStats, item);
      colorStats := colorStats[color := (if color in colorStats then colorStats[color] else 0) + 1];
      danmakus := danmakus + [item];
      n := n + 1;
    }
    assert tags[..n] == tags;
  }

  /** One `<d>` element as the route reads it, and the colour it is counted under. */
  method ParseRouteTag(tag: Tag, parseTime: string -> real) returns (item: Item, color: string)
    ensures item == ParseComment(RouteBilibili, tag.p, Some(PStr(tag.text)), parseTime)
    ensures item.color == Some(color)
  {
    var params := Split(tag.p, ',');
    var time := parseTime(params[0]);
    var modeValue := IntField(params, 1);
    var mode := if modeValue == Some(4) || modeValue == Some(5) then 1 else 0;
    var colorInt := IntField(params, 3);
    color := "#FFFFFF";
    if colorInt.Some? && colorInt.value >= 0 {
      color := "#" + UpperAll(PadStart(NatToDigits(colorInt.value, 16), 6, '0'));
    }
    item := Item(time, Some(PStr(tag.text)), Some(color), Some(mode));
  }

  lemma ParseTagsSnoc(spec: ParserSpec, tags: seq<Tag>, n: nat, parseTime: string -> real)
    requires n < |tags|
    ensures ParseTags(spec, tags[..n + 1], parseTime)
            == ParseTags(spec, tags[..n], parseTime) + [ParseComment(spec, tags[n].p, Some(PStr(tags[n].text)), parseTime)]
  {
    var longer := ParseTags(spec, tags[..n + 1], parseTime);
    var joined := ParseTags(spec, tags[..n], parseTime) + [ParseComment(spec, tags[n].p, Some(PStr(tags[n].text)), parseTime)];
    forall i | 0 <= i < n + 1
      ensures longer[i] == joined[i]
    {
      assert tags[..n + 1][i] == tags[i];
      if i < n {
        assert tags[..n][i] == tags[i];
      }
    }
  }

  /** `colorStats` counts the colours of `items`: an entry for each colour present, holding its count. */
  ghost predicate Tallies(colorStats: map<string, nat>, items: seq<Item>) {
    (forall c :: c in colorStats <==> CountColour(items, c) > 0)
    && forall c | c in colorStats :: colorStats[c] == CountColour(items, c)
  }

  lemma StatsStep(items: seq<Item>, colorStats: map<string, nat>, item: Item)
    requires Tallies(colorStats, items) && item.color.Some?
    ensures var color := item.color.value;
            Tallies(colorStats[color := (if color in colorStats then colorStats[color] else 0) + 1], items + [item])
  {
    forall c ensures CountColour(items + [item], c) == CountColour(items, c) + (if item.color == Some(c) then 1 else 0) {
      CountColourSnoc(items, item, c);
    }
  }

  lemma CountColourSnoc(items: seq<Item>, item: Item, c: string)
    ensures CountColour(items + [item], c) == CountColour(items, c) + (if item.color == Some(c) then 1 else 0)
  {
    assert (items + [item])[..|items|] == items;
  }

  // ----- fetching -----

  /** `String(v)` of a JSON scalar or `undefined`. */
  function JsString(v: Option<Prim>): string {
    if v.None? then "undefined" else PrimText(v.value)
  }

  /** The library's per-comment map: `String(comment.p)` split, `String(comment.m)` as text. */
  function DdpItems(cs: seq<DdpComment>, parseTime: string -> real): (r: seq<Item>)
    ensures |r| == |cs|
  {
    seq(|cs|, i requires 0 <= i < |cs| => ParseComment(LibDanDanPlay, JsString(cs[i].p), Some(PStr(JsString(cs[i].m))), parseTime))
  }

  /**
   * `fetchFromDanDanPlay` in both library files. The reply body is the
   * `comments` array, or None when it is missing or not an array.
   */
  function FetchDanDanPlay(resp: Response<Option<seq<DdpComment>>>, parseTime: string -> real): Fetch<seq<Item>> {
    match resp
    case HttpError(status) => Failed("DanDanPlay API error: " + IntToDecimal(status))
    case NetworkError(message) => Failed(message)
    case Reply(comments) => if comments.None? then Ok([]) else Ok(DdpItems(comments.value, parseTime))
  }

  /** What `fetchFromBilibili` in the library files returns or throws for a reply. */
  function BilibiliFetched(spec: ParserSpec, resp: Response<seq<Tag>>, parseTime: string -> real): Fetch<seq<Item>> {
    match resp
    case HttpError(status) => Failed("Bilibili API error: " + IntToDecimal(status))
    case NetworkError(message) => Failed(message)
    case Reply(tags) => Ok(ParseTags(spec, tags, parseTime))
  }

  /** `fetchFromBilibili` in the library files; `spec` is `LibBilibili` or `CopyBilibili`. */
  method FetchBilibili(spec: ParserSpec, resp: Response<seq<Tag>>, parseTime: string -> real) returns (r: Fetch<seq<Item>>)
    ensures r == BilibiliFetched(spec, resp, parseTime)
    ensures resp.HttpError? ==> r == Failed("Bilibili API error: " + IntToDecimal(resp.status))
    ensures resp.NetworkError? ==> r == Failed(resp.message)
    ensures resp.Reply? ==> r == Ok(ParseTags(spec, resp.body, parseTime))
  {
    match resp {
      case HttpError(status) =>
        r := Failed("Bilibili API error: " + IntToDecimal(status));
      case NetworkError(message) =>
        r := Failed(message);
      case Reply(tags) =>
        var list := ParseXml(spec, tags, parseTime);
        r := Ok(list);
    }
  }

  predicate IsStringP(c: DdpComment) {
    c.p.Some? && c.p.value.PStr?
  }

  /**
   * The import route's own `fetchFromDanDanPlay`: `comment.p.split` throws for a
   * `p` that is not a string, and every error becomes `[]`. The text is
   * `comment.m` as it is, not `String(comment.m)` as in the library.
   */
  function FetchDanDanPlayLocal(resp: Response<Option<seq<DdpComment>>>, parseTime: string -> real): (r: seq<Item>)
    ensures r != [] ==> resp.Reply? && resp.body.Some? && |r| == |resp.body.value|
    ensures r != [] ==> forall i | 0 <= i < |r| :: r[i].text == resp.body.value[i].m && r[i].color.Some?
  {
    if !resp.Reply? || resp.body.None? then []
    else
      var cs := resp.body.value;
      if exists i | 0 <= i < |cs| :: !IsStringP(cs[i]) then []
      else seq(|cs|, i requires 0 <= i < |cs| => ParseComment(RouteDanDanPlay, cs[i].p.value.s, cs[i].m, parseTime))
  }

  /** What the import route's own `fetchFromBilibili` returns: every error becomes `[]`. */
  function BilibiliLocalItems(resp: Response<seq<Tag>>, parseTime: string -> real): seq<Item> {
    if resp.Reply? then ParseTags(RouteBilibili, resp.body, parseTime) else []
  }

  /** The import route's own `fetchFromBilibili`, which also tallies the colours it parsed. */
  method FetchBilibiliLocal(resp: Response<seq<Tag>>, parseTime: string -> real) returns (danmakus: seq<Item>)
    ensures !resp.Reply? ==> danmakus == []
    ensures resp.Reply? ==> danmakus == ParseTags(RouteBilibili, resp.body, parseTime)
    ensures danmakus == BilibiliLocalItems(resp, parseTime)
  {
    if !resp.Reply? {
      return [];
    }
    var stats;
    danmakus, stats := ParseXmlWithStats(resp.body, parseTime);
  }

  // ----- properties -----

  /**
   * A `p` written as comma-free fields is read field by field: the time from
   * field 0, the mode from field 1 and the colour from the spec's field.
   */
  lemma ParseFields(spec: ParserSpec, fields: seq<string>, text: Option<Prim>, parseTime: string -> real)
    requires fields != []
    requires forall i | 0 <= i < |fields| :: Excludes(fields[i], ',')
    ensures var item := ParseComment(spec, Join(fields, ','), text, parseTime);
      item.time == parseTime(fields[0])
      && item.text == text
      && item.mode == Some(ModeOf(spec.modes, if 1 < |fields| then ParseIntJs(fields[1]) else None))
      && item.color == Some(ColourOf(spec.colour, if spec.colourField < |fields| then ParseIntJs(fields[spec.colourField]) else None))
  {
    SplitJoin(fields, ',');
  }

  /**
   * The two library copies of the Bilibili parser read the colour from
   * different fields: with the standard layout `time,mode,size,colour,…` the
   * copy in `danmaku.import.ts` renders the font size as the colour.
   */
  lemma CopiesReadDifferentFields(fields: seq<string>, text: Option<Prim>, parseTime: string -> real)
    requires |fields| >= 4
    requires forall i | 0 <= i < |fields| :: Excludes(fields[i], ',')
    ensures ParseComment(LibBilibili, Join(fields, ','), text, parseTime).color == Some(LowerHexColour(ParseIntJs(fields[3])))
    ensures ParseComment(CopyBilibili, Join(fields, ','), text, parseTime).color == Some(LowerHexColour(ParseIntJs(fields[2])))
  {
    ParseFields(LibBilibili, fields, text, parseTime);
    ParseFields(CopyBilibili, fields, text, parseTime);
  }

  /** A 24-bit colour is written as `#` and six hex digits that read back as the colour. */
  lemma LowerHexRoundTrip(c: int)
    requires 0 <= c < 0x100_0000
    ensures |LowerHexColour(Some(c))| == 7 && LowerHexColour(Some(c))[0] == '#'
    ensures IsDigits(LowerHexColour(Some(c))[1..], 16)
    ensures DigitsValue(LowerHexColour(Some(c))[1..], 16) == c
  {
    var h := PadStart(NatToDigits(c, 16), 6, '0');
    PaddedHex(c);
    LowerHexOfNat(c);
    assert LowerHexColour(Some(c)) == "#" + h && LowerHexColour(Some(c))[1..] == h;
  }

  lemma LowerHexOfNat(c: nat)
    ensures LowerHexColour(Some(c)) == "#" + PadStart(NatToDigits(c, 16), 6, '0')
    ensures LowerHexColour(Some(c))[1..] == PadStart(NatToDigits(c, 16), 6, '0')
  {
    var r := PadStart(NatToDigits(c, 16), 6, '0');
    assert ("#" + r)[1..] == r;
  }

  lemma PaddedHex(c: nat)
    requires c < 0x100_0000
    ensures |PadStart(NatToDigits(c, 16), 6, '0')| == 6
    ensures IsDigits(PadStart(NatToDigits(c, 16), 6, '0'), 16)
    ensures DigitsValue(PadStart(NatToDigits(c, 16), 6, '0'), 16) == c
  {
    var h := NatToDigits(c, 16);
    SixHexDigits();
    HexLengthBound(c, 6);
    DigitsWellFormed(c, 16);
    DigitsRoundTrip(c, 16);
    LeadingZeros(6 - |h|, h, 16);
    var r := PadStart(h, 6, '0');
    assert r == seq(6 - |h|, _ => '0') + h;
  }

  lemma SixHexDigits()
    ensures Pow(16, 6) == 0x100_0000
  {
    assert Pow(16, 2) == 256;
  }

  /** The route's renderer writes the same six digits in upper case, which read back as the colour too. */
  lemma UpperHexRoundTrip(c: int)
    requires 0 <= c < 0x100_0000
    ensures |UpperHexColour(Some(c))| == 7 && UpperHexColour(Some(c))[0] == '#'
    ensures IsDigits(UpperHexColour(Some(c))[1..], 16)
    ensures DigitsValue(UpperHexColour(Some(c))[1..], 16) == c
    ensures UpperHexColour(Some(c))[1..] == UpperAll(LowerHexColour(Some(c))[1..])
  {
    var h := PadStart(NatToDigits(c, 16), 6, '0');
    PaddedHex(c);
    UpperKeepsDigits(h);
    assert UpperHexColour(Some(c))[1..] == UpperAll(h);
    assert LowerHexColour(Some(c))[1..] == h;
  }

  lemma {:induction false} UpperKeepsDigits(s: string)
    requires IsDigits(s, 16)
    ensures IsDigits(UpperAll(s), 16)
    ensures DigitsValue(UpperAll(s), 16) == DigitsValue(s, 16)
  {
    if s != [] {
      var p := s[..|s| - 1];
      UpperKeepsDigits(p);
      assert UpperAll(s)[..|s| - 1] == UpperAll(p);
    }
  }

  /**
   * The route's renderer falls back to white exactly when `parseInt` gave NaN
   * or a negative number; the fallback cannot be told apart from a genuine
   * white, 16777215.
   */
  lemma WhiteDefault(x: Option<int>)
    ensures x.None? || x.value < 0 ==> UpperHexColour(x) == "#FFFFFF"
    ensures UpperHexColour(Some(0xFF_FFFF)) == "#FFFFFF"
  {
    WhiteDigits();
    assert PadStart("ffffff", 6, '0') == "ffffff";
    assert UpperAll("ffffff") == "FFFFFF";
  }

  lemma WhiteDigits()
    ensures NatToDigits(0xFF_FFFF, 16) == "ffffff"
  {
    assert NatToDigits(0xF, 16) == "f";
    assert NatToDigits(0xFF, 16) == "ff";
    assert NatToDigits(0xFFF, 16) == "fff";
    assert NatToDigits(0xFFFF, 16) == "ffff";
    assert NatToDigits(0xF_FFFF, 16) == "fffff";
  }

  /** Without a number the library renderers write `#000NaN`, which is not a colour. */
  lemma NaNColour()
    ensures LowerHexColour(None) == "#000NaN"
  {
  }

  /**
   * A negative number keeps its minus sign inside the padding, just before
   * the digits of its magnitude, so the library renderers write something that
   * is not a hex colour.
   */
  lemma NegativeColour(n: int)
    requires n < 0
    ensures var h := LowerHexColour(Some(n))[1..];
      h[|h| - |NatToDigits(-n, 16)| - 1] == '-'
      && !IsDigits(h, 16)
  {
    var h := LowerHexColour(Some(n))[1..];
    assert h == PadStart(HexText(Some(n)), 6, '0');
    SignInsidePadding(NatToDigits(-n, 16), h);
  }

  /** For instance -255 gives `#000-ff`. */
  lemma NegativeColourExample()
    ensures LowerHexColour(Some(-255)) == "#000-ff"
  {
    assert NatToDigits(255, 16) == "ff";
  }

  lemma SignInsidePadding(digits: string, h: string)
    requires h == PadStart("-" + digits, 6, '0')
    ensures h[|h| - |digits| - 1] == '-' && !IsDigits(h, 16)
  {
    var k := |h| - |digits| - 1;
    assert h[k..] == "-" + digits;
    assert h[k] == ("-" + digits)[0];
    assert DigitOf(h[k]) == 36;
  }

  /** Every library parser yields exactly one item per comment, in input order. */
  lemma DdpOneItemPerComment(cs: seq<DdpComment>, parseTime: string -> real, i: nat)
    requires i < |cs|
    ensures FetchDanDanPlay(Reply(Some(cs)), parseTime).Ok?
    ensures |FetchDanDanPlay(Reply(Some(cs)), parseTime).value| == |cs|
    ensures FetchDanDanPlay(Reply(Some(cs)), parseTime).value[i].text == Some(PStr(JsString(cs[i].m)))
  {
  }

  /**
   * The route's DanDanPlay parser pins only mode 4, where the library's pins 4
   * and 5: the two agree on every mode value except 5, which scrolls in one
   * and is pinned in the other.
   */
  lemma ModeFiveDiffers(p: string, text: Option<Prim>, parseTime: string -> real)
    ensures IntField(Split(p, ','), 1) == Some(5) ==>
      ParseComment(LibDanDanPlay, p, text, parseTime).mode == Some(1)
      && ParseComment(RouteDanDanPlay, p, text, parseTime).mode == Some(0)
    ensures IntField(Split(p, ','), 1) != Some(5) ==>
      ParseComment(LibDanDanPlay, p, text, parseTime) == ParseComment(RouteDanDanPlay, p, text, parseTime)
  {
  }

  /** One comment whose `p` is not a string empties the route's whole DanDanPlay result. */
  lemma LocalDdpAllOrNothing(cs: seq<DdpComment>, parseTime: string -> real)
    ensures |FetchDanDanPlayLocal(Reply(Some(cs)), parseTime)| == |cs| <==> (forall i | 0 <= i < |cs| :: IsStringP(cs[i]))
  {
  }

  /**
   * The library's DanDanPlay parser stores `String(comment.m)`, the route's
   * stores `comment.m` itself: a comment without `m` gets the text
   * `"undefined"` in one and no text at all in the other, and a numeric `m`
   * is stored as text in one and as a number in the other.
   */
  lemma RouteKeepsRawText(c: DdpComment, parseTime: string -> real)
    requires IsStringP(c)
    ensures FetchDanDanPlayLocal(Reply(Some([c])), parseTime)[0].text == c.m
    ensures DdpItems([c], parseTime)[0].text == Some(PStr(JsString(c.m)))
    ensures c.m.None? ==> DdpItems([c], parseTime)[0].text == Some(PStr("undefined"))
    ensures c.m.Some? && c.m.value.PNum? ==>
      DdpItems([c], parseTime)[0].text == Some(PStr(IntToDecimal(c.m.value.n)))
      && FetchDanDanPlayLocal(Reply(Some([c])), parseTime)[0].text == Some(PNum(c.m.value.n))
  {
  }
}

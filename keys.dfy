/**
 * The strings behind the store's keys. The code builds every key with a
 * template literal: `danmaku:<source>:<id>:<episode>` for an episode's bucket,
 * `danmaku:canonical:<slug>:<episode>` for a canonical bucket and
 * `danmaku:map:<source>:<id>` for a video's map record. The rest of the model
 * keys the store by `Key` values, whose three kinds never coincide; this module
 * says when the strings do not coincide either, and shows inputs where they do.
 */
module Keys {
  import opened Common
  import opened Text

  /** The key string the code writes for `k`. */
  function KeyText(k: Key): string {
    match k
    case Bucket(source, id, episode) => "danmaku:" + source + ":" + id + ":" + IntToDecimal(episode)
    case CanonicalBucket(slug, episode) => "danmaku:canonical:" + slug + ":" + IntToDecimal(episode)
    case MapSlot(source, id) => "danmaku:map:" + source + ":" + id
  }

  /** The `:`-separated fields of the key string. */
  function KeyFields(k: Key): seq<string> {
    match k
    case Bucket(source, id, episode) => ["danmaku", source, id, IntToDecimal(episode)]
    case CanonicalBucket(slug, episode) => ["danmaku", "canonical", slug, IntToDecimal(episode)]
    case MapSlot(source, id) => ["danmaku", "map", source, id]
  }

  /**
   * A key whose string cannot be mistaken for another's: no `:` inside the
   * source, id or slug, and an episode bucket's source is neither `canonical`
   * nor `map`, the two words that open the other kinds of key.
   */
  predicate PlainKey(k: Key) {
    match k
    case Bucket(source, id, _) =>
      Excludes(source, ':') && Excludes(id, ':') && source != "canonical" && source != "map"
    case CanonicalBucket(slug, _) => Excludes(slug, ':')
    case MapSlot(source, id) => Excludes(source, ':') && Excludes(id, ':')
  }

  lemma FourFields(a: string, b: string, c: string, d: string)
    ensures Join([a, b, c, d], ':') == a + ":" + b + ":" + c + ":" + d
  {
    assert [a, b, c, d][1..] == [b, c, d];
    assert [b, c, d][1..] == [c, d];
    assert [c, d][1..] == [d];
    assert Join([c, d], ':') == c + ":" + d;
    assert Join([b, c, d], ':') == b + ":" + (c + ":" + d);
    assert Join([a, b, c, d], ':') == a + ":" + (b + ":" + (c + ":" + d));
  }

  lemma KeyTextFields(k: Key)
    ensures KeyText(k) == Join(KeyFields(k), ':')
  {
    match k
    case Bucket(source, id, episode) =>
      FourFields("danmaku", source, id, IntToDecimal(episode));
    case CanonicalBucket(slug, episode) =>
      FourFields("danmaku", "canonical", slug, IntToDecimal(episode));
      assert "danmaku" + ":" + "canonical" + ":" == "danmaku:canonical:";
    case MapSlot(source, id) =>
      FourFields("danmaku", "map", source, id);
      assert "danmaku" + ":" + "map" + ":" == "danmaku:map:";
  }

  /** `String(n)` writes digits and perhaps a leading `-`, never a `:`. */
  lemma DecimalExcludesColon(n: int)
    ensures Excludes(IntToDecimal(n), ':')
  {
    var m := if n < 0 then -n else n;
    DigitsWellFormed(m, 10);
    var digits := NatToDigits(m, 10);
    forall i | 0 <= i < |digits|
      ensures digits[i] != ':'
    {
      assert DigitOf(digits[i]) < 10;
    }
    if n < 0 {
      assert IntToDecimal(n) == "-" + digits;
    }
  }

  /** `String(n)` starts with `-` exactly for a negative number. */
  lemma DecimalSign(n: int)
    ensures IntToDecimal(n) != [] && (IntToDecimal(n)[0] == '-' <==> n < 0)
  {
    var m := if n < 0 then -n else n;
    DigitsWellFormed(m, 10);
    assert DigitOf(NatToDigits(m, 10)[0]) < 10;
  }

  /** Different integers have different `String(n)`. */
  lemma DecimalInjective(a: int, b: int)
    requires IntToDecimal(a) == IntToDecimal(b)
    ensures a == b
  {
    var ma := if a < 0 then -a else a;
    var mb := if b < 0 then -b else b;
    DecimalSign(a);
    DecimalSign(b);
    DigitsRoundTrip(ma, 10);
    DigitsRoundTrip(mb, 10);
    if a < 0 {
      assert NatToDigits(ma, 10) == IntToDecimal(a)[1..];
      assert NatToDigits(mb, 10) == IntToDecimal(b)[1..];
    }
  }

  lemma PlainFields(k: Key)
    requires PlainKey(k)
    ensures |KeyFields(k)| == 4
    ensures forall i | 0 <= i < 4 :: Excludes(KeyFields(k)[i], ':')
  {
    match k
    case Bucket(_, _, episode) =>
      DecimalExcludesColon(episode);
    case CanonicalBucket(_, episode) =>
      DecimalExcludesColon(episode);
    case MapSlot(_, _) =>
  }

  /**
   * For plain keys the strings are as distinct as the keys: two plain keys
   * share a string exactly when they are the same key. Whatever the model
   * proves about distinct keys then holds of the code's string keys.
   */
  lemma KeyTextInjective(k1: Key, k2: Key)
    requires PlainKey(k1) && PlainKey(k2)
    ensures KeyText(k1) == KeyText(k2) <==> k1 == k2
  {
    if KeyText(k1) == KeyText(k2) {
      KeyTextFields(k1);
      KeyTextFields(k2);
      PlainFields(k1);
      PlainFields(k2);
      SplitJoin(KeyFields(k1), ':');
      SplitJoin(KeyFields(k2), ':');
      var f := KeyFields(k1);
      assert f == KeyFields(k2);
      if k1.Bucket? && k2.Bucket? {
        DecimalInjective(k1.episode, k2.episode);
      } else if k1.CanonicalBucket? && k2.CanonicalBucket? {
        DecimalInjective(k1.episode, k2.episode);
      }
    }
  }

  /**
   * Without the premise the code's keys collide. An episode bucket whose
   * source is `canonical` is the canonical bucket of a slug equal to its id;
   * one whose source is `map` is the map record of a video whose id is the
   * episode number; and a `:` inside a source or an id merges two
   * (source, id) pairs into one bucket and one map record.
   */
  lemma KeyCollisions(source: string, id: string, more: string, episode: int)
    ensures Bucket("canonical", id, episode) != CanonicalBucket(id, episode)
    ensures KeyText(Bucket("canonical", id, episode)) == KeyText(CanonicalBucket(id, episode))
    ensures Bucket("map", id, episode) != MapSlot(id, IntToDecimal(episode))
    ensures KeyText(Bucket("map", id, episode)) == KeyText(MapSlot(id, IntToDecimal(episode)))
    ensures Bucket(source + ":" + id, more, episode) != Bucket(source, id + ":" + more, episode)
    ensures KeyText(Bucket(source + ":" + id, more, episode)) == KeyText(Bucket(source, id + ":" + more, episode))
    ensures MapSlot(source + ":" + id, more) != MapSlot(source, id + ":" + more)
    ensures KeyText(MapSlot(source + ":" + id, more)) == KeyText(MapSlot(source, id + ":" + more))
  {
    var e := IntToDecimal(episode);
    assert "danmaku:" + "canonical" + ":" + id + ":" + e == "danmaku:canonical:" + id + ":" + e;
    assert "danmaku:" + "map" + ":" + id + ":" + e == "danmaku:map:" + id + ":" + e;
    assert |source + ":" + id| != |source|;
    assert "danmaku:" + (source + ":" + id) + ":" + more + ":" + e
        == "danmaku:" + source + ":" + (id + ":" + more) + ":" + e;
    assert "danmaku:map:" + (source + ":" + id) + ":" + more
        == "danmaku:map:" + source + ":" + (id + ":" + more);
  }
}

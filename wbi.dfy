/**
 * Bilibili's WBI request signing: the mixin key drawn from the two image keys
 * through a fixed 64-entry permutation, the character filter applied to string
 * parameters, the sorted `k=v&...` query that is hashed, and the six-hour cache
 * of image keys. MD5 and the clock are parameters.
 */
module Wbi {
  import opened Common
  import opened Text

  // ----- the mixin key -----

  /** The fixed reordering applied to `imgKey + subKey` (`mixinKeyEncTab`), written in rows of eight. */
  const MixinKeyEncTab: seq<int> := MixinKeyEncTab0 + MixinKeyEncTab1 + MixinKeyEncTab2 + MixinKeyEncTab3 + MixinKeyEncTab4 + MixinKeyEncTab5 + MixinKeyEncTab6 + MixinKeyEncTab7
  const MixinKeyEncTab0: seq<int> := [46, 47, 18, 2, 53, 8, 23, 32]
  const MixinKeyEncTab1: seq<int> := [15, 50, 10, 31, 58, 3, 45, 35]
  const MixinKeyEncTab2: seq<int> := [27, 43, 5, 49, 33, 9, 42, 19]
  const MixinKeyEncTab3: seq<int> := [29, 28, 14, 39, 12, 38, 41, 13]
  const MixinKeyEncTab4: seq<int> := [37, 48, 7, 16, 24, 55, 40, 61]
  const MixinKeyEncTab5: seq<int> := [26, 17, 0, 1, 60, 51, 30, 4]
  const MixinKeyEncTab6: seq<int> := [22, 25, 54, 21, 56, 59, 6, 63]
  const MixinKeyEncTab7: seq<int> := [57, 62, 11, 20, 34, 36, 44, 52]

  /** Where each of 0..63 sits in `MixinKeyEncTab`. */
  const MixinKeyDecTab: seq<int> := MixinKeyDecTab0 + MixinKeyDecTab1 + MixinKeyDecTab2 + MixinKeyDecTab3 + MixinKeyDecTab4 + MixinKeyDecTab5 + MixinKeyDecTab6 + MixinKeyDecTab7
  const MixinKeyDecTab0: seq<int> := [42, 43, 3, 13, 47, 18, 54, 34]
  const MixinKeyDecTab1: seq<int> := [5, 21, 10, 58, 28, 31, 26, 8]
  const MixinKeyDecTab2: seq<int> := [35, 41, 2, 23, 59, 51, 48, 6]
  const MixinKeyDecTab3: seq<int> := [36, 49, 40, 16, 25, 24, 46, 11]
  const MixinKeyDecTab4: seq<int> := [7, 20, 60, 15, 61, 32, 29, 27]
  const MixinKeyDecTab5: seq<int> := [38, 30, 22, 17, 62, 14, 0, 1]
  const MixinKeyDecTab6: seq<int> := [33, 19, 9, 45, 63, 4, 50, 37]
  const MixinKeyDecTab7: seq<int> := [52, 56, 12, 53, 44, 39, 57, 55]

  /** `enc` and `dec` are inverse to each other at `n`. */
  predicate InverseAt(enc: seq<int>, dec: seq<int>, n: int) {
    0 <= n < |enc| && 0 <= enc[n] < |dec| && dec[enc[n]] == n
    && 0 <= n < |dec| && 0 <= dec[n] < |enc| && enc[dec[n]] == n
  }

  /** Two 64-entry tables that undo each other are permutations of 0..63. */
  lemma InversePermutes(enc: seq<int>, dec: seq<int>)
    requires |enc| == 64 && |dec| == 64
    requires forall i | 0 <= i < 64 :: InverseAt(enc, dec, i)
    ensures forall i | 0 <= i < 64 :: 0 <= enc[i] < 64
    ensures forall i, j | 0 <= i < 64 && 0 <= j < 64 && i != j :: enc[i] != enc[j]
    ensures forall k | 0 <= k < 64 :: 0 <= dec[k] < 64 && enc[dec[k]] == k
  {
    forall i | 0 <= i < 64
      ensures 0 <= enc[i] < 64 && 0 <= dec[i] < 64 && enc[dec[i]] == i
    {
      assert InverseAt(enc, dec, i);
    }
    forall i, j | 0 <= i < 64 && 0 <= j < 64 && i != j
      ensures enc[i] != enc[j]
    {
      assert InverseAt(enc, dec, i) && InverseAt(enc, dec, j);
    }
  }

  /** `mixinKeyEncTab` is a permutation of 0..63. */
  lemma MixinTableIsPermutation()
    ensures |MixinKeyEncTab| == 64
    ensures forall i | 0 <= i < 64 :: 0 <= MixinKeyEncTab[i] < 64
    ensures forall i, j | 0 <= i < 64 && 0 <= j < 64 && i != j :: MixinKeyEncTab[i] != MixinKeyEncTab[j]
    ensures forall k | 0 <= k < 64 :: 0 <= MixinKeyDecTab[k] < 64 && MixinKeyEncTab[MixinKeyDecTab[k]] == k
  {
    TablesInverse();
    InversePermutes(MixinKeyEncTab, MixinKeyDecTab);
  }

  lemma TablesInverse()
    ensures |MixinKeyEncTab| == 64 && |MixinKeyDecTab| == 64
    ensures forall i | 0 <= i < 64 :: InverseAt(MixinKeyEncTab, MixinKeyDecTab, i)
  {
    InverseBlock0();
    InverseBlock1();
    InverseBlock2();
    InverseBlock3();
    InverseBlock4();
    InverseBlock5();
    InverseBlock6();
    InverseBlock7();
    InverseBlock8();
    InverseBlock9();
    InverseBlock10();
    InverseBlock11();
    InverseBlock12();
    InverseBlock13();
    InverseBlock14();
    InverseBlock15();
  }

  // The two tables checked entry by entry, four entries per lemma.

  lemma InverseBlock0()
    ensures forall i | 0 <= i < 4 :: InverseAt(MixinKeyEncTab, MixinKeyDecTab, i)
  {
    assert MixinKeyEncTab[0] == 46 && MixinKeyDecTab[46] == 0 && MixinKeyDecTab[0] == 42 && MixinKeyEncTab[42] == 0;
    assert MixinKeyEncTab[1] == 47 && MixinKeyDecTab[47] == 1 && MixinKeyDecTab[1] == 43 && MixinKeyEncTab[43] == 1;
    assert MixinKeyEncTab[2] == 18 && MixinKeyDecTab[18] == 2 && MixinKeyDecTab[2] == 3 && MixinKeyEncTab[3] == 2;
    assert MixinKeyEncTab[3] == 2 && MixinKeyDecTab[2] == 3 && MixinKeyDecTab[3] == 13 && MixinKeyEncTab[13] == 3;
  }

  lemma InverseBlock1()
    ensures forall i | 4 <= i < 8 :: InverseAt(MixinKeyEncTab, MixinKeyDecTab, i)
  {
    assert MixinKeyEncTab[4] == 53 && MixinKeyDecTab[53] == 4 && MixinKeyDecTab[4] == 47 && MixinKeyEncTab[47] == 4;
    assert MixinKeyEncTab[5] == 8 && MixinKeyDecTab[8] == 5 && MixinKeyDecTab[5] == 18 && MixinKeyEncTab[18] == 5;
    assert MixinKeyEncTab[6] == 23 && MixinKeyDecTab[23] == 6 && MixinKeyDecTab[6] == 54 && MixinKeyEncTab[54] == 6;
    assert MixinKeyEncTab[7] == 32 && MixinKeyDecTab[32] == 7 && MixinKeyDecTab[7] == 34 && MixinKeyEncTab[34] == 7;
  }

  lemma InverseBlock2()
    ensures forall i | 8 <= i < 12 :: InverseAt(MixinKeyEncTab, MixinKeyDecTab, i)
  {
    assert MixinKeyEncTab[8] == 15 && MixinKeyDecTab[15] == 8 && MixinKeyDecTab[8] == 5 && MixinKeyEncTab[5] == 8;
    assert MixinKeyEncTab[9] == 50 && MixinKeyDecTab[50] == 9 && MixinKeyDecTab[9] == 21 && MixinKeyEncTab[21] == 9;
    assert MixinKeyEncTab[10] == 10 && MixinKeyDecTab[10] == 10 && MixinKeyDecTab[10] == 10 && MixinKeyEncTab[10] == 10;
    assert MixinKeyEncTab[11] == 31 && MixinKeyDecTab[31] == 11 && MixinKeyDecTab[11] == 58 && MixinKeyEncTab[58] == 11;
  }

  lemma InverseBlock3()
    ensures forall i | 12 <= i < 16 :: InverseAt(MixinKeyEncTab, MixinKeyDecTab, i)
  {
    assert MixinKeyEncTab[12] == 58 && MixinKeyDecTab[58] == 12 && MixinKeyDecTab[12] == 28 && MixinKeyEncTab[28] == 12;
    assert MixinKeyEncTab[13] == 3 && MixinKeyDecTab[3] == 13 && MixinKeyDecTab[13] == 31 && MixinKeyEncTab[31] == 13;
    assert MixinKeyEncTab[14] == 45 && MixinKeyDecTab[45] == 14 && MixinKeyDecTab[14] == 26 && MixinKeyEncTab[26] == 14;
    assert MixinKeyEncTab[15] == 35 && MixinKeyDecTab[35] == 15 && MixinKeyDecTab[15] == 8 && MixinKeyEncTab[8] == 15;
  }

  lemma InverseBlock4()
    ensures forall i | 16 <= i < 20 :: InverseAt(MixinKeyEncTab, MixinKeyDecTab, i)
  {
    assert MixinKeyEncTab[16] == 27 && MixinKeyDecTab[27] == 16 && MixinKeyDecTab[16] == 35 && MixinKeyEncTab[35] == 16;
    assert MixinKeyEncTab[17] == 43 && MixinKeyDecTab[43] == 17 && MixinKeyDecTab[17] == 41 && MixinKeyEncTab[41] == 17;
    assert MixinKeyEncTab[18] == 5 && MixinKeyDecTab[5] == 18 && MixinKeyDecTab[18] == 2 && MixinKeyEncTab[2] == 18;
    assert MixinKeyEncTab[19] == 49 && MixinKeyDecTab[49] == 19 && MixinKeyDecTab[19] == 23 && MixinKeyEncTab[23] == 19;
  }

  lemma InverseBlock5()
    ensures forall i | 20 <= i < 24 :: InverseAt(MixinKeyEncTab, MixinKeyDecTab, i)
  {
    assert MixinKeyEncTab[20] == 33 && MixinKeyDecTab[33] == 20 && MixinKeyDecTab[20] == 59 && MixinKeyEncTab[59] == 20;
    assert MixinKeyEncTab[21] == 9 && MixinKeyDecTab[9] == 21 && MixinKeyDecTab[21] == 51 && MixinKeyEncTab[51] == 21;
    assert MixinKeyEncTab[22] == 42 && MixinKeyDecTab[42] == 22 && MixinKeyDecTab[22] == 48 && MixinKeyEncTab[48] == 22;
    assert MixinKeyEncTab[23] == 19 && MixinKeyDecTab[19] == 23 && MixinKeyDecTab[23] == 6 && MixinKeyEncTab[6] == 23;
  }

  lemma InverseBlock6()
    ensures forall i | 24 <= i < 28 :: InverseAt(MixinKeyEncTab, MixinKeyDecTab, i)
  {
    assert MixinKeyEncTab[24] == 29 && MixinKeyDecTab[29] == 24 && MixinKeyDecTab[24] == 36 && MixinKeyEncTab[36] == 24;
    assert MixinKeyEncTab[25] == 28 && MixinKeyDecTab[28] == 25 && MixinKeyDecTab[25] == 49 && MixinKeyEncTab[49] == 25;
    assert MixinKeyEncTab[26] == 14 && MixinKeyDecTab[14] == 26 && MixinKeyDecTab[26] == 40 && MixinKeyEncTab[40] == 26;
    assert MixinKeyEncTab[27] == 39 && MixinKeyDecTab[39] == 27 && MixinKeyDecTab[27] == 16 && MixinKeyEncTab[16] == 27;
  }

  lemma InverseBlock7()
    ensures forall i | 28 <= i < 32 :: InverseAt(MixinKeyEncTab, MixinKeyDecTab, i)
  {
    assert MixinKeyEncTab[28] == 12 && MixinKeyDecTab[12] == 28 && MixinKeyDecTab[28] == 25 && MixinKeyEncTab[25] == 28;
    assert MixinKeyEncTab[29] == 38 && MixinKeyDecTab[38] == 29 && MixinKeyDecTab[29] == 24 && MixinKeyEncTab[24] == 29;
    assert MixinKeyEncTab[30] == 41 && MixinKeyDecTab[41] == 30 && MixinKeyDecTab[30] == 46 && MixinKeyEncTab[46] == 30;
    assert MixinKeyEncTab[31] == 13 && MixinKeyDecTab[13] == 31 && MixinKeyDecTab[31] == 11 && MixinKeyEncTab[11] == 31;
  }

  lemma InverseBlock8()
    ensures forall i | 32 <= i < 36 :: InverseAt(MixinKeyEncTab, MixinKeyDecTab, i)
  {
    assert MixinKeyEncTab[32] == 37 && MixinKeyDecTab[37] == 32 && MixinKeyDecTab[32] == 7 && MixinKeyEncTab[7] == 32;
    assert MixinKeyEncTab[33] == 48 && MixinKeyDecTab[48] == 33 && MixinKeyDecTab[33] == 20 && MixinKeyEncTab[20] == 33;
    assert MixinKeyEncTab[34] == 7 && MixinKeyDecTab[7] == 34 && MixinKeyDecTab[34] == 60 && MixinKeyEncTab[60] == 34;
    assert MixinKeyEncTab[35] == 16 && MixinKeyDecTab[16] == 35 && MixinKeyDecTab[35] == 15 && MixinKeyEncTab[15] == 35;
  }

  lemma InverseBlock9()
    ensures forall i | 36 <= i < 40 :: InverseAt(MixinKeyEncTab, MixinKeyDecTab, i)
  {
    assert MixinKeyEncTab[36] == 24 && MixinKeyDecTab[24] == 36 && MixinKeyDecTab[36] == 61 && MixinKeyEncTab[61] == 36;
    assert MixinKeyEncTab[37] == 55 && MixinKeyDecTab[55] == 37 && MixinKeyDecTab[37] == 32 && MixinKeyEncTab[32] == 37;
    assert MixinKeyEncTab[38] == 40 && MixinKeyDecTab[40] == 38 && MixinKeyDecTab[38] == 29 && MixinKeyEncTab[29] == 38;
    assert MixinKeyEncTab[39] == 61 && MixinKeyDecTab[61] == 39 && MixinKeyDecTab[39] == 27 && MixinKeyEncTab[27] == 39;
  }

  lemma InverseBlock10()
    ensures forall i | 40 <= i < 44 :: InverseAt(MixinKeyEncTab, MixinKeyDecTab, i)
  {
    assert MixinKeyEncTab[40] == 26 && MixinKeyDecTab[26] == 40 && MixinKeyDecTab[40] == 38 && MixinKeyEncTab[38] == 40;
    assert MixinKeyEncTab[41] == 17 && MixinKeyDecTab[17] == 41 && MixinKeyDecTab[41] == 30 && MixinKeyEncTab[30] == 41;
    assert MixinKeyEncTab[42] == 0 && MixinKeyDecTab[0] == 42 && MixinKeyDecTab[42] == 22 && MixinKeyEncTab[22] == 42;
    assert MixinKeyEncTab[43] == 1 && MixinKeyDecTab[1] == 43 && MixinKeyDecTab[43] == 17 && MixinKeyEncTab[17] == 43;
  }

  lemma InverseBlock11()
    ensures forall i | 44 <= i < 48 :: InverseAt(MixinKeyEncTab, MixinKeyDecTab, i)
  {
    assert MixinKeyEncTab[44] == 60 && MixinKeyDecTab[60] == 44 && MixinKeyDecTab[44] == 62 && MixinKeyEncTab[62] == 44;
    assert MixinKeyEncTab[45] == 51 && MixinKeyDecTab[51] == 45 && MixinKeyDecTab[45] == 14 && MixinKeyEncTab[14] == 45;
    assert MixinKeyEncTab[46] == 30 && MixinKeyDecTab[30] == 46 && MixinKeyDecTab[46] == 0 && MixinKeyEncTab[0] == 46;
    assert MixinKeyEncTab[47] == 4 && MixinKeyDecTab[4] == 47 && MixinKeyDecTab[47] == 1 && MixinKeyEncTab[1] == 47;
  }

  lemma InverseBlock12()
    ensures forall i | 48 <= i < 52 :: InverseAt(MixinKeyEncTab, MixinKeyDecTab, i)
  {
    assert MixinKeyEncTab[48] == 22 && MixinKeyDecTab[22] == 48 && MixinKeyDecTab[48] == 33 && MixinKeyEncTab[33] == 48;
    assert MixinKeyEncTab[49] == 25 && MixinKeyDecTab[25] == 49 && MixinKeyDecTab[49] == 19 && MixinKeyEncTab[19] == 49;
    assert MixinKeyEncTab[50] == 54 && MixinKeyDecTab[54] == 50 && MixinKeyDecTab[50] == 9 && MixinKeyEncTab[9] == 50;
    assert MixinKeyEncTab[51] == 21 && MixinKeyDecTab[21] == 51 && MixinKeyDecTab[51] == 45 && MixinKeyEncTab[45] == 51;
  }

  lemma InverseBlock13()
    ensures forall i | 52 <= i < 56 :: InverseAt(MixinKeyEncTab, MixinKeyDecTab, i)
  {
    assert MixinKeyEncTab[52] == 56 && MixinKeyDecTab[56] == 52 && MixinKeyDecTab[52] == 63 && MixinKeyEncTab[63] == 52;
    assert MixinKeyEncTab[53] == 59 && MixinKeyDecTab[59] == 53 && MixinKeyDecTab[53] == 4 && MixinKeyEncTab[4] == 53;
    assert MixinKeyEncTab[54] == 6 && MixinKeyDecTab[6] == 54 && MixinKeyDecTab[54] == 50 && MixinKeyEncTab[50] == 54;
    assert MixinKeyEncTab[55] == 63 && MixinKeyDecTab[63] == 55 && MixinKeyDecTab[55] == 37 && MixinKeyEncTab[37] == 55;
  }

  lemma InverseBlock14()
    ensures forall i | 56 <= i < 60 :: InverseAt(MixinKeyEncTab, MixinKeyDecTab, i)
  {
    assert MixinKeyEncTab[56] == 57 && MixinKeyDecTab[57] == 56 && MixinKeyDecTab[56] == 52 && MixinKeyEncTab[52] == 56;
    assert MixinKeyEncTab[57] == 62 && MixinKeyDecTab[62] == 57 && MixinKeyDecTab[57] == 56 && MixinKeyEncTab[56] == 57;
    assert MixinKeyEncTab[58] == 11 && MixinKeyDecTab[11] == 58 && MixinKeyDecTab[58] == 12 && MixinKeyEncTab[12] == 58;
    assert MixinKeyEncTab[59] == 20 && MixinKeyDecTab[20] == 59 && MixinKeyDecTab[59] == 53 && MixinKeyEncTab[53] == 59;
  }

  lemma InverseBlock15()
    ensures forall i | 60 <= i < 64 :: InverseAt(MixinKeyEncTab, MixinKeyDecTab, i)
  {
    assert MixinKeyEncTab[60] == 34 && MixinKeyDecTab[34] == 60 && MixinKeyDecTab[60] == 44 && MixinKeyEncTab[44] == 60;
    assert MixinKeyEncTab[61] == 36 && MixinKeyDecTab[36] == 61 && MixinKeyDecTab[61] == 39 && MixinKeyEncTab[39] == 61;
    assert MixinKeyEncTab[62] == 44 && MixinKeyDecTab[44] == 62 && MixinKeyDecTab[62] == 57 && MixinKeyEncTab[57] == 62;
    assert MixinKeyEncTab[63] == 52 && MixinKeyDecTab[52] == 63 && MixinKeyDecTab[63] == 55 && MixinKeyEncTab[55] == 63;
  }

  /**
   * `tab.map(i => orig[i]).join('')`: an index past the end reads `undefined`,
   * which `join` writes as the empty string.
   */
  function Pick(orig: string, tab: seq<int>): string {
    if tab == [] then []
    else (if 0 <= tab[0] < |orig| then [orig[tab[0]]] else []) + Pick(orig, tab[1..])
  }

  lemma {:induction false} PickInRange(orig: string, tab: seq<int>)
    requires forall i | 0 <= i < |tab| :: 0 <= tab[i] < |orig|
    ensures |Pick(orig, tab)| == |tab|
    ensures forall i | 0 <= i < |tab| :: Pick(orig, tab)[i] == orig[tab[i]]
  {
    if tab != [] {
      PickInRange(orig, tab[1..]);
    }
  }

  /** `getMixinKey(orig)`: the reordered characters, cut to 32. */
  function GetMixinKey(orig: string): string {
    var res := Pick(orig, MixinKeyEncTab);
    if |res| <= 32 then res else res[..32]
  }

  /**
   * For the 64-character `imgKey + subKey`, the mixin key has 32 characters,
   * character i is `orig[mixinKeyEncTab[i]]`, and no position of `orig` is used twice.
   */
  lemma MixinKeyOfFullInput(orig: string)
    requires |orig| >= 64
    ensures |GetMixinKey(orig)| == 32
    ensures forall i | 0 <= i < 32 :: GetMixinKey(orig)[i] == orig[MixinKeyEncTab[i]]
    ensures forall i, j | 0 <= i < 32 && 0 <= j < 32 && i != j :: MixinKeyEncTab[i] != MixinKeyEncTab[j]
  {
    MixinTableIsPermutation();
    PickInRange(orig, MixinKeyEncTab);
  }

  // ----- the character filter -----

  /** The characters `filterWbiChars` removes: ``!'()*``. */
  predicate IsWbiSpecial(c: char) {
    c == '!' || c == '\'' || c == '(' || c == ')' || c == '*'
  }

  predicate KeepWbi(c: char) {
    !IsWbiSpecial(c)
  }

  /** `filterWbiChars(s)`: `s.replace(/[!'()*]/g, '')`. */
  function FilterWbiChars(s: string): string {
    Filter(KeepWbi, s)
  }

  /**
   * The filter removes exactly the special characters and keeps every other
   * character in order: filtering around one character `c` is filtering the two
   * sides, with `c` kept unless it is special.
   */
  lemma FilterWbiCharsRemovesExactly(a: string, c: char, b: string)
    ensures FilterWbiChars(a + [c] + b) == FilterWbiChars(a) + (if IsWbiSpecial(c) then [] else [c]) + FilterWbiChars(b)
  {
    FilterConcat(KeepWbi, a + [c], b);
    FilterConcat(KeepWbi, a, [c]);
    assert [c][1..] == [];
  }

  /** The result holds no special character, and a string without one is left as it is. */
  lemma FilterWbiCharsClean(s: string)
    ensures forall i | 0 <= i < |FilterWbiChars(s)| :: !IsWbiSpecial(FilterWbiChars(s)[i])
    ensures (forall i | 0 <= i < |s| :: !IsWbiSpecial(s[i])) ==> FilterWbiChars(s) == s
    ensures FilterWbiChars(FilterWbiChars(s)) == FilterWbiChars(s)
  {
    FilterOnlyKeeps(KeepWbi, s);
    if forall i | 0 <= i < |s| :: !IsWbiSpecial(s[i]) {
      FilterKeepsAll(KeepWbi, s);
    }
    FilterIdempotent(KeepWbi, s);
  }

  // ----- parameter records -----

  /** A JavaScript object of request parameters, as its entries in order. */
  type Params = seq<(string, Prim)>

  predicate UniqueKeys(ps: Params) {
    forall i, j | 0 <= i < j < |ps| :: ps[i].0 != ps[j].0
  }

  function KeysOf(ps: Params): set<string> {
    set i | 0 <= i < |ps| :: ps[i].0
  }

  /** `ps[k]`. */
  function Get(ps: Params, k: string): Option<Prim> {
    if ps == [] then None
    else if ps[0].0 == k then Some(ps[0].1)
    else Get(ps[1..], k)
  }

  /** `ps[k] = v`: an existing key keeps its place, a new one goes last. */
  function Put(ps: Params, k: string, v: Prim): Params {
    if ps == [] then [(k, v)]
    else if ps[0].0 == k then [(k, v)] + ps[1..]
    else [ps[0]] + Put(ps[1..], k, v)
  }

  /** The record without key `k`. */
  function Remove(ps: Params, k: string): Params {
    if ps == [] then []
    else if ps[0].0 == k then Remove(ps[1..], k)
    else [ps[0]] + Remove(ps[1..], k)
  }

  /** After `ps[k] = v`, key `k` reads `v`, every other key reads as before, and the key set grows by `k`. */
  lemma {:induction false} PutGet(ps: Params, k: string, v: Prim, other: string)
    ensures Get(Put(ps, k, v), k) == Some(v)
    ensures other != k ==> Get(Put(ps, k, v), other) == Get(ps, other)
    ensures KeysOf(Put(ps, k, v)) == KeysOf(ps) + {k}
    ensures UniqueKeys(ps) ==> UniqueKeys(Put(ps, k, v))
  {
    PutReads(ps, k, v, other);
    PutKeys(ps, k, v);
    if UniqueKeys(ps) {
      PutUnique(ps, k, v);
    }
  }

  lemma {:induction false} PutReads(ps: Params, k: string, v: Prim, other: string)
    ensures Get(Put(ps, k, v), k) == Some(v)
    ensures other != k ==> Get(Put(ps, k, v), other) == Get(ps, other)
  {
    if ps != [] {
      PutReads(ps[1..], k, v, other);
      if ps[0].0 == k {
        assert ([(k, v)] + ps[1..])[1..] == ps[1..];
      } else {
        assert ([ps[0]] + Put(ps[1..], k, v))[1..] == Put(ps[1..], k, v);
      }
    }
  }

  lemma {:induction false} PutKeys(ps: Params, k: string, v: Prim)
    ensures KeysOf(Put(ps, k, v)) == KeysOf(ps) + {k}
  {
    if ps == [] {
      KeysOfCons([(k, v)]);
    } else {
      var rest := ps[1..];
      PutKeys(rest, k, v);
      KeysOfCons(ps);
      if ps[0].0 == k {
        KeysOfCons([(k, v)] + rest);
        assert ([(k, v)] + rest)[1..] == rest;
      } else {
        KeysOfCons([ps[0]] + Put(rest, k, v));
        assert ([ps[0]] + Put(rest, k, v))[1..] == Put(rest, k, v);
      }
    }
  }

  lemma {:induction false} PutUnique(ps: Params, k: string, v: Prim)
    requires UniqueKeys(ps)
    ensures UniqueKeys(Put(ps, k, v))
  {
    if ps != [] {
      var rest := ps[1..];
      KeysOfCons(ps);
      assert ps[0].0 !in KeysOf(rest);
      if ps[0].0 == k {
        UniqueCons((k, v), rest);
      } else {
        PutUnique(rest, k, v);
        PutKeys(rest, k, v);
        UniqueCons(ps[0], Put(rest, k, v));
      }
    }
  }

  lemma KeysOfCons(ps: Params)
    requires ps != []
    ensures KeysOf(ps) == {ps[0].0} + KeysOf(ps[1..])
  {
    assert forall i | 1 <= i < |ps| :: ps[i] == ps[1..][i - 1];
    assert forall i | 0 <= i < |ps| - 1 :: ps[1..][i] == ps[i + 1];
  }

  lemma UniqueCons(e: (string, Prim), ps: Params)
    requires UniqueKeys(ps) && e.0 !in KeysOf(ps)
    ensures UniqueKeys([e] + ps)
  {
    var s := [e] + ps;
    forall i, j | 0 <= i < j < |s|
      ensures s[i].0 != s[j].0
    {
      if i == 0 {
        assert s[j] == ps[j - 1];
      } else {
        assert s[i] == ps[i - 1] && s[j] == ps[j - 1];
      }
    }
  }

  /** Setting a new key appends it. */
  lemma {:induction false} PutFresh(ps: Params, k: string, v: Prim)
    requires k !in KeysOf(ps)
    ensures Put(ps, k, v) == ps + [(k, v)]
  {
    if ps != [] {
      KeysOfCons(ps);
      PutFresh(ps[1..], k, v);
    }
  }

  /** Removing a key that was just appended gives back the record. */
  lemma {:induction false} RemoveAppended(ps: Params, k: string, v: Prim)
    requires k !in KeysOf(ps)
    ensures Remove(ps + [(k, v)], k) == ps
  {
    if ps == [] {
      assert [(k, v)][1..] == [];
    } else {
      KeysOfCons(ps);
      assert (ps + [(k, v)])[1..] == ps[1..] + [(k, v)];
      RemoveAppended(ps[1..], k, v);
    }
  }

  // ----- sorting keys -----

  /**
   * `a <= b` in the order `Array.prototype.sort` uses for strings, compared by
   * code point. JavaScript compares UTF-16 code units, which order the same
   * way for the ASCII parameter names signed here but can differ beyond the
   * Basic Multilingual Plane.
   */
  predicate StrLe(a: string, b: string) {
    a == [] || (b != [] && (a[0] < b[0] || (a[0] == b[0] && StrLe(a[1..], b[1..]))))
  }

  lemma {:induction false} StrLeTotal(a: string, b: string)
    ensures StrLe(a, b) || StrLe(b, a)
  {
    if a != [] && b != [] && a[0] == b[0] {
      StrLeTotal(a[1..], b[1..]);
    }
  }

  predicate SortedByKey(ps: Params) {
    forall i | 0 <= i < |ps| - 1 :: StrLe(ps[i].0, ps[i + 1].0)
  }

  function Insert(e: (string, Prim), ps: Params): (r: Params)
    ensures |r| == |ps| + 1
  {
    if ps == [] then [e]
    else if StrLe(e.0, ps[0].0) then [e] + ps
    else [ps[0]] + Insert(e, ps[1..])
  }

  /** The entries ordered by key (`Object.keys(ps).sort()`). */
  function SortByKey(ps: Params): (r: Params)
    ensures |r| == |ps|
  {
    if ps == [] then [] else Insert(ps[0], SortByKey(ps[1..]))
  }

  lemma {:induction false} InsertSorted(e: (string, Prim), ps: Params)
    requires SortedByKey(ps)
    ensures SortedByKey(Insert(e, ps))
    ensures multiset(Insert(e, ps)) == multiset(ps) + multiset{e}
    ensures Insert(e, ps)[0] == e || Insert(e, ps)[0] == ps[0]
  {
    if ps != [] && !StrLe(e.0, ps[0].0) {
      var rest := ps[1..];
      forall i | 0 <= i < |rest| - 1
        ensures StrLe(rest[i].0, rest[i + 1].0)
      {
        assert rest[i] == ps[i + 1] && rest[i + 1] == ps[i + 2];
      }
      InsertSorted(e, rest);
      StrLeTotal(e.0, ps[0].0);
      var tail := Insert(e, rest);
      var r := [ps[0]] + tail;
      forall i | 0 <= i < |r| - 1
        ensures StrLe(r[i].0, r[i + 1].0)
      {
        if i > 0 {
          assert r[i] == tail[i - 1] && r[i + 1] == tail[i];
        } else if tail[0] != e {
          assert rest != [] && tail[0] == ps[1];
        }
      }
      assert ps == [ps[0]] + rest;
    }
  }

  lemma {:induction false} SortByKeySorted(ps: Params)
    ensures SortedByKey(SortByKey(ps))
    ensures multiset(SortByKey(ps)) == multiset(ps)
  {
    if ps != [] {
      SortByKeySorted(ps[1..]);
      InsertSorted(ps[0], SortByKey(ps[1..]));
      assert ps == [ps[0]] + ps[1..];
    }
  }

  // ----- query strings -----

  /** `k=v` for each entry, the value written by `render`. */
  function Pairs(ps: Params, render: Prim -> string): (r: seq<string>)
    ensures |r| == |ps|
  {
    if ps == [] then [] else [ps[0].0 + "=" + render(ps[0].1)] + Pairs(ps[1..], render)
  }

  lemma {:induction false} PairsAt(ps: Params, render: Prim -> string, i: nat)
    requires i < |ps|
    ensures Pairs(ps, render)[i] == ps[i].0 + "=" + render(ps[i].1)
  {
    if i > 0 {
      PairsAt(ps[1..], render, i - 1);
    }
  }

  /** The string `signWbiParams` hashes: sorted keys, `${k}=${v}`, joined by `&`. */
  function SigningQuery(ps: Params): string {
    Join(Pairs(SortByKey(ps), PrimText), '&')
  }

  /** A value written as `encode(String(v))`. */
  function Encoded(encode: string -> string): Prim -> string {
    v => encode(PrimText(v))
  }

  /** `buildQuery(ps)`: sorted keys, values through `String` and then `encode` (encodeURIComponent). */
  function BuildQuery(ps: Params, encode: string -> string): string {
    Join(Pairs(SortByKey(ps), Encoded(encode)), '&')
  }

  /**
   * A built query splits back at `&` into the `k=v` pairs of all entries in key
   * order, provided no key and no encoded value contains `&` (which
   * `encodeURIComponent` guarantees for values).
   */
  lemma BuildQuerySplits(ps: Params, encode: string -> string)
    requires ps != []
    requires forall i | 0 <= i < |ps| :: Excludes(ps[i].0, '&')
    requires forall s :: Excludes(encode(s), '&')
    ensures |Split(BuildQuery(ps, encode), '&')| == |ps|
    ensures forall i | 0 <= i < |ps| ::
      Split(BuildQuery(ps, encode), '&')[i] == SortByKey(ps)[i].0 + "=" + encode(PrimText(SortByKey(ps)[i].1))
  {
    var sorted := SortByKey(ps);
    var render := Encoded(encode);
    SortByKeySorted(ps);
    assert |sorted| == |ps| by {
      assert |multiset(sorted)| == |multiset(ps)|;
    }
    var parts := Pairs(sorted, render);
    forall i | 0 <= i < |parts|
      ensures Excludes(parts[i], '&')
      ensures parts[i] == sorted[i].0 + "=" + encode(PrimText(sorted[i].1))
    {
      PairsAt(sorted, render, i);
      assert sorted[i] in multiset(ps);
      var j :| 0 <= j < |ps| && ps[j] == sorted[i];
      assert Excludes(encode(PrimText(sorted[i].1)), '&');
    }
    SplitJoin(parts, '&');
  }

  // ----- signing -----

  datatype WbiKeys = WbiKeys(imgKey: string, subKey: string)

  /** A parameter value after filtering: strings lose their special characters. */
  function FilterValue(v: Prim): Prim {
    if v.PStr? then PStr(FilterWbiChars(v.s)) else v
  }

  /** `filtered`: every entry, string values filtered. */
  function FilterValues(ps: Params): (r: Params)
    ensures |r| == |ps|
  {
    if ps == [] then [] else [(ps[0].0, FilterValue(ps[0].1))] + FilterValues(ps[1..])
  }

  function MixinOf(keys: WbiKeys): string {
    GetMixinKey(keys.imgKey + keys.subKey)
  }

  /** What `signWbiParams` returns, given the keys `getWbiKeys` produced and the time. */
  function SignedParams(ps: Params, keys: Option<WbiKeys>, nowMs: nat, md5: string -> string): Params {
    if keys.None? then ps
    else
      var filtered := Put(FilterValues(ps), "wts", PNum(nowMs / 1000));
      Put(filtered, "w_rid", PStr(md5(SigningQuery(filtered) + MixinOf(keys.value))))
  }

  /** `signWbiParams(params)`. */
  method SignWbiParams(ps: Params, keys: Option<WbiKeys>, nowMs: nat, md5: string -> string) returns (signed: Params)
    requires UniqueKeys(ps)
    ensures signed == SignedParams(ps, keys, nowMs, md5)
  {
    if keys.None? {
      return ps;
    }
    var mixinKey := MixinOf(keys.value);
    var wts := nowMs / 1000;
    var filtered: Params := [];
    for i := 0 to |ps|
      invariant filtered == FilterValues(ps[..i])
    {
      FilterValuesKeys(ps[..i]);
      assert ps[i].0 !in KeysOf(ps[..i]);
      PutFresh(filtered, ps[i].0, FilterValue(ps[i].1));
      filtered := Put(filtered, ps[i].0, FilterValue(ps[i].1));
      FilterValuesSnoc(ps[..i], ps[i]);
      assert ps[..i + 1] == ps[..i] + [ps[i]];
    }
    assert ps[..|ps|] == ps;
    filtered := Put(filtered, "wts", PNum(wts));
    var wRid := md5(SigningQuery(filtered) + mixinKey);
    signed := Put(filtered, "w_rid", PStr(wRid));
  }

  lemma {:induction false} FilterValuesKeys(ps: Params)
    ensures KeysOf(FilterValues(ps)) == KeysOf(ps)
    ensures forall i | 0 <= i < |ps| :: FilterValues(ps)[i] == (ps[i].0, FilterValue(ps[i].1))
  {
    if ps != [] {
      FilterValuesKeys(ps[1..]);
      KeysOfCons(ps);
      KeysOfCons(FilterValues(ps));
      assert FilterValues(ps)[1..] == FilterValues(ps[1..]);
    }
  }

  lemma {:induction false} FilterValuesSnoc(ps: Params, e: (string, Prim))
    ensures FilterValues(ps + [e]) == FilterValues(ps) + [(e.0, FilterValue(e.1))]
  {
    if ps == [] {
      assert ([] + [e])[1..] == [];
    } else {
      assert (ps + [e])[1..] == ps[1..] + [e];
      FilterValuesSnoc(ps[1..], e);
    }
  }

  /** Without keys the parameters go out unsigned and unchanged. */
  lemma UnsignedWithoutKeys(ps: Params, nowMs: nat, md5: string -> string)
    ensures SignedParams(ps, None, nowMs, md5) == ps
  {
  }

  /**
   * A signed request carries every original key plus `wts` and `w_rid`; `wts`
   * is the time in whole seconds; every other value is the original one, with
   * string values filtered.
   */
  lemma {:induction false} SignedContents(ps: Params, keys: WbiKeys, nowMs: nat, md5: string -> string, k: string)
    requires UniqueKeys(ps)
    ensures KeysOf(SignedParams(ps, Some(keys), nowMs, md5)) == KeysOf(ps) + {"wts", "w_rid"}
    ensures Get(SignedParams(ps, Some(keys), nowMs, md5), "wts") == Some(PNum(nowMs / 1000))
    ensures k != "wts" && k != "w_rid" && Get(ps, k).Some? ==>
      Get(SignedParams(ps, Some(keys), nowMs, md5), k) == Some(FilterValue(Get(ps, k).value))
    ensures k != "wts" && k != "w_rid" && Get(ps, k).None? ==>
      Get(SignedParams(ps, Some(keys), nowMs, md5), k).None?
  {
    var fv := FilterValues(ps);
    var filtered := Put(fv, "wts", PNum(nowMs / 1000));
    var rid := PStr(md5(SigningQuery(filtered) + MixinOf(keys)));
    FilterValuesKeys(ps);
    PutGet(fv, "wts", PNum(nowMs / 1000), k);
    PutGet(filtered, "w_rid", rid, k);
    PutGet(filtered, "w_rid", rid, "wts");
    GetFilterValues(ps, k);
  }

  lemma {:induction false} GetFilterValues(ps: Params, k: string)
    ensures Get(FilterValues(ps), k) == if Get(ps, k).Some? then Some(FilterValue(Get(ps, k).value)) else None
  {
    if ps != [] {
      GetFilterValues(ps[1..], k);
      assert FilterValues(ps)[1..] == FilterValues(ps[1..]);
    }
  }

  /**
   * The receiving side can check the signature: dropping `w_rid` from a signed
   * request and hashing the sorted query of the rest with the mixin key gives
   * `w_rid` back (when the caller did not already send `w_rid` or `wts`).
   */
  lemma SignatureChecks(ps: Params, keys: WbiKeys, nowMs: nat, md5: string -> string)
    requires UniqueKeys(ps) && "w_rid" !in KeysOf(ps) && "wts" !in KeysOf(ps)
    ensures Get(SignedParams(ps, Some(keys), nowMs, md5), "w_rid")
      == Some(PStr(md5(SigningQuery(Remove(SignedParams(ps, Some(keys), nowMs, md5), "w_rid")) + MixinOf(keys))))
  {
    var fv := FilterValues(ps);
    FilterValuesKeys(ps);
    PutFresh(fv, "wts", PNum(nowMs / 1000));
    var filtered := fv + [("wts", PNum(nowMs / 1000))];
    assert KeysOf(filtered) == KeysOf(fv) + {"wts"} by {
      PutGet(fv, "wts", PNum(nowMs / 1000), "wts");
    }
    var rid := PStr(md5(SigningQuery(filtered) + MixinOf(keys)));
    PutFresh(filtered, "w_rid", rid);
    RemoveAppended(filtered, "w_rid", rid);
    PutGet(filtered, "w_rid", rid, "w_rid");
  }

  // ----- the key cache -----

  /** How long fetched image keys are reused: six hours, in milliseconds. */
  const KeyTtlMs: int := 6 * 60 * 60 * 1000

  datatype CachedKeys = CachedKeys(keys: WbiKeys, ts: int)

  /** `data.data.wbi_img` of the nav reply: the two image URLs, each possibly absent. */
  datatype NavImages = NavImages(imgUrl: Option<string>, subUrl: Option<string>)

  predicate IsAlnum(c: char) {
    ('a' <= c <= 'z') || ('A' <= c <= 'Z') || ('0' <= c <= '9')
  }

  /** The longest suffix of `s` made of ASCII letters and digits. */
  function AlnumSuffix(s: string): (r: string)
    ensures |r| <= |s| && r == s[|s| - |r|..]
    ensures forall i | 0 <= i < |r| :: IsAlnum(r[i])
    ensures |r| < |s| ==> !IsAlnum(s[|s| - |r| - 1])
  {
    if s != [] && IsAlnum(s[|s| - 1]) then
      var r := AlnumSuffix(s[..|s| - 1]) + [s[|s| - 1]];
      assert s[..|s| - 1][|s| - |r|..] + [s[|s| - 1]] == s[|s| - |r|..];
      r
    else []
  }

  predicate IsImageExt(e: string) {
    e == ".png" || e == ".jpg"
  }

  /** The key in an image URL: the capture of `/\/([a-zA-Z0-9]+)\.(?:png|jpg)$/`. */
  function ExtractKey(url: string): Option<string> {
    if |url| >= 4 && IsImageExt(url[|url| - 4..]) then
      var body := url[..|url| - 4];
      var k := AlnumSuffix(body);
      if k != [] && |k| < |body| && body[|body| - |k| - 1] == '/' then Some(k) else None
    else None
  }

  /** The extracted key is non-empty, alphanumeric, and the URL ends in `/key.png` or `/key.jpg`. */
  lemma ExtractKeySound(url: string)
    requires ExtractKey(url).Some?
    ensures var k := ExtractKey(url).value;
      k != [] && (forall i | 0 <= i < |k| :: IsAlnum(k[i]))
      && exists prefix, ext :: IsImageExt(ext) && url == prefix + "/" + k + ext
  {
    var k := ExtractKey(url).value;
    var body := url[..|url| - 4];
    var prefix := body[..|body| - |k| - 1];
    var ext := url[|url| - 4..];
    assert body == prefix + "/" + k;
    assert url == body + ext;
  }

  /** An image URL ending in `/key.png` or `/key.jpg` yields that key. */
  lemma ExtractKeyOf(prefix: string, k: string, ext: string)
    requires k != [] && (forall i | 0 <= i < |k| :: IsAlnum(k[i])) && IsImageExt(ext)
    ensures ExtractKey(prefix + "/" + k + ext) == Some(k)
  {
    var url := prefix + "/" + k + ext;
    var body := prefix + "/" + k;
    assert url[..|url| - 4] == body;
    assert url[|url| - 4..] == ext;
    AlnumSuffixOf(prefix + "/", k);
    assert body[|body| - |k| - 1] == '/';
  }

  lemma {:induction false} AlnumSuffixOf(p: string, k: string)
    requires (forall i | 0 <= i < |k| :: IsAlnum(k[i]))
    requires p != [] && !IsAlnum(p[|p| - 1])
    ensures AlnumSuffix(p + k) == k
  {
    if k == [] {
      assert p + k == p;
    } else {
      var s := p + k;
      assert s[..|s| - 1] == p + k[..|k| - 1];
      AlnumSuffixOf(p, k[..|k| - 1]);
      assert k[..|k| - 1] + [k[|k| - 1]] == k;
    }
  }

  /** The keys a nav reply yields: both URLs present and non-empty and both keys extracted. */
  function KeysFromNav(nav: Response<NavImages>): Option<WbiKeys> {
    if !nav.Reply? then None
    else if !Truthy(nav.body.imgUrl) || !Truthy(nav.body.subUrl) then None
    else
      var img := ExtractKey(nav.body.imgUrl.value);
      var sub := ExtractKey(nav.body.subUrl.value);
      if img.None? || sub.None? then None else Some(WbiKeys(img.value, sub.value))
  }

  /** The cache serves a lookup at `now` while it is younger than six hours. */
  predicate CacheHit(cache: Option<CachedKeys>, now: int) {
    cache.Some? && now - cache.value.ts < KeyTtlMs
  }

  /** What `getWbiKeys` returns at `now`: the cached keys on a hit, otherwise what the nav reply yields. */
  function KeysServed(cache: Option<CachedKeys>, now: int, nav: Response<NavImages>): Option<WbiKeys> {
    if CacheHit(cache, now) then Some(cache.value.keys) else KeysFromNav(nav)
  }

  /** The cache after `getWbiKeys` at `now`: replaced, stamped `now`, only by a miss that yields keys. */
  function CacheAfter(cache: Option<CachedKeys>, now: int, nav: Response<NavImages>): Option<CachedKeys> {
    if !CacheHit(cache, now) && KeysFromNav(nav).Some? then Some(CachedKeys(KeysFromNav(nav).value, now)) else cache
  }

  /**
   * A hit needs no request and changes nothing; a miss that yields keys stores
   * them stamped `now`; a failed request or extraction returns None and leaves
   * the cache as it was.
   */
  lemma CacheRules(cache: Option<CachedKeys>, now: int, nav: Response<NavImages>)
    ensures CacheHit(cache, now) ==> KeysServed(cache, now, nav) == Some(cache.value.keys) && CacheAfter(cache, now, nav) == cache
    ensures !CacheHit(cache, now) && KeysFromNav(nav).Some? ==>
      KeysServed(cache, now, nav) == KeysFromNav(nav) && CacheAfter(cache, now, nav) == Some(CachedKeys(KeysFromNav(nav).value, now))
    ensures KeysServed(cache, now, nav).None? ==> CacheAfter(cache, now, nav) == cache
  {
  }

  /** Keys stored at `t` are served, unchanged and without a request, at every time before `t` + six hours. */
  lemma CachedWithinTtl(cache: Option<CachedKeys>, t: int, nav: Response<NavImages>, later: int, nav2: Response<NavImages>)
    requires !CacheHit(cache, t) && KeysFromNav(nav).Some?
    requires t <= later < t + KeyTtlMs
    ensures KeysServed(CacheAfter(cache, t, nav), later, nav2) == KeysFromNav(nav)
    ensures CacheAfter(CacheAfter(cache, t, nav), later, nav2) == CacheAfter(cache, t, nav)
  {
  }

  /** Once six hours have passed since the stamp, the next lookup goes back to the nav reply. */
  lemma ExpiredRefetches(keys: WbiKeys, t: int, later: int, nav: Response<NavImages>)
    requires later >= t + KeyTtlMs
    ensures KeysServed(Some(CachedKeys(keys, t)), later, nav) == KeysFromNav(nav)
  {
  }

  /** The module-level `wbiCache`. */
  class WbiKeyCache {
    var cache: Option<CachedKeys>

    constructor()
      ensures cache == None
    {
      cache := None;
    }

    /**
     * `getWbiKeys()` at time `now`; `nav` is what the nav request yields, read
     * only on a miss.
     */
    method GetWbiKeys(now: int, nav: Response<NavImages>) returns (keys: Option<WbiKeys>)
      modifies this
      ensures keys == KeysServed(old(cache), now, nav)
      ensures cache == CacheAfter(old(cache), now, nav)
    {
      if cache.Some? && now - cache.value.ts < KeyTtlMs {
        return Some(cache.value.keys);
      }
      if !nav.Reply? {
        return None;
      }
      var imgUrl, subUrl := nav.body.imgUrl, nav.body.subUrl;
      if !Truthy(imgUrl) || !Truthy(subUrl) {
        return None;
      }
      var imgKey := ExtractKey(imgUrl.value);
      var subKey := ExtractKey(subUrl.value);
      if imgKey.None? || subKey.None? {
        return None;
      }
      cache := Some(CachedKeys(WbiKeys(imgKey.value, subKey.value), now));
      keys := Some(WbiKeys(imgKey.value, subKey.value));
    }
  }
}

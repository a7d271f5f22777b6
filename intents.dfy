/** Gateway intents (bhaicord/intents.py): the table of intent flags and the two
    masks built from it by OR-ing flags in a loop. */
module Intents {

  /** The flag table, in the order the source lists it. */
  const INTENTS: seq<(string, bv32)> := [
    ("GUILDS", 1 << 0),
    ("GUILD_MEMBERS", 1 << 1),
    ("GUILD_BANS", 1 << 2),
    ("GUILD_EMOJIS_AND_STICKERS", 1 << 3),
    ("GUILD_INTEGRATIONS", 1 << 4),
    ("GUILD_WEBHOOKS", 1 << 5),
    ("GUILD_INVITES", 1 << 6),
    ("GUILD_VOICE_STATES", 1 << 7),
    ("GUILD_PRESENCES", 1 << 8),
    ("GUILD_MESSAGES", 1 << 9),
    ("GUILD_MESSAGE_REACTIONS", 1 << 10),
    ("GUILD_MESSAGE_TYPING", 1 << 11),
    ("DIRECT_MESSAGES", 1 << 12),
    ("DIRECT_MESSAGE_REACTIONS", 1 << 13),
    ("DIRECT_MESSAGE_TYPING", 1 << 14),
    ("GUILD_SCHEDULED_EVENTS", 1 << 16)
  ]

  /** The privileged intents `standard` skips. */
  const PRIVILEGED: seq<string> := ["GUILD_MEMBERS", "GUILD_PRESENCES"]

  /** The OR of the flags of a list of table entries. */
  function OrOf(entries: seq<(string, bv32)>): bv32
    decreases |entries|
  {
    if |entries| == 0 then 0 else OrOf(entries[..|entries| - 1]) | entries[|entries| - 1].1
  }

  /** The entries `standard` keeps. */
  function Standard(entries: seq<(string, bv32)>): seq<(string, bv32)>
    decreases |entries|
  {
    if |entries| == 0 then []
    else
      var prev := Standard(entries[..|entries| - 1]);
      if entries[|entries| - 1].0 in PRIVILEGED then prev else prev + [entries[|entries| - 1]]
  }

  /** `standard` keeps exactly the entries whose names are not privileged. */
  lemma {:induction false} StandardKeepsUnprivileged(entries: seq<(string, bv32)>)
    ensures |Standard(entries)| <= |entries|
    ensures forall e :: e in Standard(entries) <==> e in entries && e.0 !in PRIVILEGED
    decreases |entries|
  {
    if |entries| > 0 {
      var init := entries[..|entries| - 1];
      StandardKeepsUnprivileged(init);
      assert entries == init + [entries[|entries| - 1]];
    }
  }

  /** `standard` keeps every unprivileged entry as many times as it occurs and
      drops every privileged one. */
  lemma {:induction false} StandardCounts(entries: seq<(string, bv32)>, e: (string, bv32))
    ensures multiset(Standard(entries))[e] == if e.0 in PRIVILEGED then 0 else multiset(entries)[e]
    decreases |entries|
  {
    if |entries| > 0 {
      var init, last := entries[..|entries| - 1], entries[|entries| - 1];
      StandardCounts(init, e);
      assert entries == init + [last];
      assert multiset(entries) == multiset(init) + multiset{last};
    }
  }

  /** The standard mask does not depend on the order of the table: two tables
      holding the same entries, as many times each, give the same value. */
  lemma StandardPermutation(xs: seq<(string, bv32)>, ys: seq<(string, bv32)>)
    requires multiset(xs) == multiset(ys)
    ensures OrOf(Standard(xs)) == OrOf(Standard(ys))
  {
    forall e ensures multiset(Standard(xs))[e] == multiset(Standard(ys))[e] {
      StandardCounts(xs, e);
      StandardCounts(ys, e);
    }
    assert multiset(Standard(xs)) == multiset(Standard(ys));
    OrOfPermutation(Standard(xs), Standard(ys));
  }

  /** Every flag is a single bit other than bit 15, no two flags share a bit,
      and no two names are equal. */
  lemma FlagsAreDistinctBits()
    ensures forall i :: 0 <= i < |INTENTS| ==> SingleBit(INTENTS[i].1)
    ensures forall i, j :: 0 <= i < j < |INTENTS| ==> Disjoint(INTENTS[i].1, INTENTS[j].1) && INTENTS[i].0 != INTENTS[j].0
  {
    TableBitsChecked();
    BitsCheckedFacts(INTENTS);
    FlagNamesDistinct();
  }

  /** No two intents share a name. */
  lemma FlagNamesDistinct()
    ensures forall i, j :: 0 <= i < j < |INTENTS| ==> INTENTS[i].0 != INTENTS[j].0
  {
  }

  /** `x` and `y` share no bit. */
  predicate Disjoint(x: bv32, y: bv32)
  {
    x & y == 0
  }

  /** Every bit of `x` is in `y`. */
  predicate Within(x: bv32, y: bv32)
  {
    x & y == x
  }

  /** A flag that is one bit, not bit 15. */
  predicate SingleBit(x: bv32)
  {
    x != 0 && x & (x - 1) == 0 && x & (1 << 15) == 0
  }

  /** Walking the table, each flag is a single bit outside bit 15 and shares no
      bit with the flags before it. */
  predicate BitsChecked(entries: seq<(string, bv32)>)
    decreases |entries|
  {
    |entries| == 0 ||
    (BitsChecked(entries[..|entries| - 1]) && SingleBit(entries[|entries| - 1].1)
     && Disjoint(OrOf(entries[..|entries| - 1]), entries[|entries| - 1].1))
  }

  /** Every flag is among the bits of the OR. */
  lemma {:induction false} FlagWithinOr(entries: seq<(string, bv32)>, i: nat)
    requires i < |entries|
    ensures Within(entries[i].1, OrOf(entries))
    decreases |entries|
  {
    if i < |entries| - 1 {
      FlagWithinOr(entries[..|entries| - 1], i);
    }
  }

  /** A checked walk gives single bits that pairwise share none. */
  lemma {:induction false} BitsCheckedFacts(entries: seq<(string, bv32)>)
    requires BitsChecked(entries)
    ensures forall i :: 0 <= i < |entries| ==> SingleBit(entries[i].1)
    ensures forall i, j :: 0 <= i < j < |entries| ==> Disjoint(entries[i].1, entries[j].1)
    decreases |entries|
  {
    if |entries| > 0 {
      var init := entries[..|entries| - 1];
      var last := entries[|entries| - 1].1;
      BitsCheckedFacts(init);
      forall i | 0 <= i < |init| ensures Disjoint(entries[i].1, last) {
        FlagWithinOr(init, i);
        assert init[i] == entries[i];
        DisjointWithin(entries[i].1, OrOf(init), last);
      }
      forall i, j | 0 <= i < j < |init| ensures Disjoint(entries[i].1, entries[j].1) {
        assert init[i] == entries[i] && init[j] == entries[j];
      }
      forall i | 0 <= i < |init| ensures SingleBit(entries[i].1) {
        assert init[i] == entries[i];
      }
    }
  }

  /** Bits inside `y` share none with what `y` shares none with. */
  lemma DisjointWithin(x: bv32, y: bv32, z: bv32)
    requires Within(x, y) && Disjoint(y, z)
    ensures Disjoint(x, z)
  {
  }

  /** Walking one more entry: a single bit disjoint from the flags so far keeps
      the walk checked and adds its bit to the OR. */
  lemma CheckedStep(n: nat, v: bv32)
    requires 0 < n <= |INTENTS|
    requires BitsChecked(INTENTS[..n - 1]) && OrOf(INTENTS[..n - 1]) == v
    requires SingleBit(INTENTS[n - 1].1) && Disjoint(v, INTENTS[n - 1].1)
    ensures BitsChecked(INTENTS[..n]) && OrOf(INTENTS[..n]) == v | INTENTS[n - 1].1
  {
    assert INTENTS[..n][..n - 1] == INTENTS[..n - 1];
  }

  /** The first four entries satisfy `BitsChecked`. */
  lemma ChecksThrough4()
    ensures OrOf(INTENTS[..4]) == 0xF && BitsChecked(INTENTS[..4])
  {
    assert INTENTS[..0] == [];
    CheckedStep(1, 0x0);
    CheckedStep(2, 0x1);
    CheckedStep(3, 0x3);
    CheckedStep(4, 0x7);
  }

  /** The first eight entries satisfy `BitsChecked`. */
  lemma ChecksThrough8()
    ensures OrOf(INTENTS[..8]) == 0xFF && BitsChecked(INTENTS[..8])
  {
    ChecksThrough4();
    CheckedStep(5, 0xF);
    CheckedStep(6, 0x1F);
    CheckedStep(7, 0x3F);
    CheckedStep(8, 0x7F);
  }

  /** The first twelve entries satisfy `BitsChecked`. */
  lemma ChecksThrough12()
    ensures OrOf(INTENTS[..12]) == 0xFFF && BitsChecked(INTENTS[..12])
  {
    ChecksThrough8();
    CheckedStep(9, 0xFF);
    CheckedStep(10, 0x1FF);
    CheckedStep(11, 0x3FF);
    CheckedStep(12, 0x7FF);
  }

  /** The table satisfies `BitsChecked`. */
  lemma TableBitsChecked()
    ensures BitsChecked(INTENTS)
  {
    ChecksThrough12();
    CheckedStep(13, 0xFFF);
    CheckedStep(14, 0x1FFF);
    CheckedStep(15, 0x3FFF);
    CheckedStep(16, 0x7FFF);
    assert INTENTS[..16] == INTENTS;
  }

  /** The OR of two lists is the OR of their ORs. */
  lemma {:induction false} OrOfAppend(xs: seq<(string, bv32)>, ys: seq<(string, bv32)>)
    ensures OrOf(xs + ys) == OrOf(xs) | OrOf(ys)
    decreases |ys|
  {
    if |ys| == 0 {
      assert xs + ys == xs;
    } else {
      var init := ys[..|ys| - 1];
      assert (xs + ys)[..|xs + ys| - 1] == xs + init;
      OrOfAppend(xs, init);
    }
  }

  /** The mask does not depend on the order the table is walked in: any
      rearrangement of the entries gives the same value, swapping two blocks
      in particular. */
  lemma OrOfOrderIndependent(xs: seq<(string, bv32)>, ys: seq<(string, bv32)>)
    ensures multiset(xs) == multiset(ys) ==> OrOf(xs) == OrOf(ys)
    ensures OrOf(xs + ys) == OrOf(ys + xs)
  {
    if multiset(xs) == multiset(ys) {
      OrOfPermutation(xs, ys);
    }
    OrOfAppend(xs, ys);
    OrOfAppend(ys, xs);
  }

  /** The OR of a single entry is its flag. */
  lemma OrOfSingle(x: (string, bv32))
    ensures OrOf([x]) == x.1
  {
    assert [x][..0] == [];
  }

  /** Taking one entry out of a list leaves the other entries. */
  lemma TakeOutEntries(ys: seq<(string, bv32)>, k: nat)
    requires k < |ys|
    ensures multiset(ys) == multiset(ys[..k] + ys[k + 1..]) + multiset{ys[k]}
  {
    var before, x, after := ys[..k], ys[k], ys[k + 1..];
    assert ys == before + [x] + after;
    assert multiset(ys) == multiset(before) + multiset{x} + multiset(after);
    assert multiset(before + after) == multiset(before) + multiset(after);
  }

  /** The OR of a list is the OR of the other entries with the one taken out. */
  lemma TakeOut(ys: seq<(string, bv32)>, k: nat)
    requires k < |ys|
    ensures OrOf(ys) == OrOf(ys[..k] + ys[k + 1..]) | ys[k].1
  {
    assert ys == (ys[..k] + [ys[k]]) + ys[k + 1..];
    OrOfSplit(ys[..k], ys[k], ys[k + 1..]);
  }

  /** An entry between two runs contributes its flag to the OR of the runs. */
  lemma {:induction false} OrOfSplit(before: seq<(string, bv32)>, x: (string, bv32), after: seq<(string, bv32)>)
    ensures OrOf((before + [x]) + after) == OrOf(before + after) | x.1
    decreases |after|
  {
    if |after| == 0 {
      assert (before + [x]) + after == before + [x];
      assert before + after == before;
      assert (before + [x])[..|before|] == before;
    } else {
      var init, y := after[..|after| - 1], after[|after| - 1];
      assert ((before + [x]) + after)[..|before| + 1 + |init|] == (before + [x]) + init;
      assert (before + after)[..|before| + |init|] == before + init;
      OrOfSplit(before, x, init);
      OrSwap(OrOf((before + [x]) + init), OrOf(before + init), x.1, y.1);
    }
  }

  /** A flag OR-ed before or after another. */
  lemma OrSwap(withC: bv32, rest: bv32, c: bv32, d: bv32)
    requires withC == rest | c
    ensures withC | d == (rest | d) | c
  {
  }

  /** Adding the same element to two multisets keeps them apart or equal. */
  lemma CancelOne<T>(a: multiset<T>, b: multiset<T>, x: T)
    requires a + multiset{x} == b + multiset{x}
    ensures a == b
  {
    forall y ensures a[y] == b[y] {
      assert (a + multiset{x})[y] == (b + multiset{x})[y];
    }
  }

  /** Two lists holding the same entries, as many times each, have the same OR. */
  lemma {:induction false} OrOfPermutation(xs: seq<(string, bv32)>, ys: seq<(string, bv32)>)
    requires multiset(xs) == multiset(ys)
    ensures OrOf(xs) == OrOf(ys)
    decreases |xs|
  {
    if |xs| == 0 {
      assert |ys| == |multiset(ys)| == 0;
    } else {
      var n := |xs| - 1;
      var x := xs[n];
      assert x in multiset(ys);
      var k :| 0 <= k < |ys| && ys[k] == x;
      TakeOutEntries(xs, n);
      TakeOutEntries(ys, k);
      TakeOut(xs, n);
      TakeOut(ys, k);
      var rest := ys[..k] + ys[k + 1..];
      assert xs[..n] + xs[n + 1..] == xs[..n];
      CancelOne(multiset(xs[..n]), multiset(rest), x);
      OrOfPermutation(xs[..n], rest);
    }
  }

  /** `Intents.all()`: bits 0 to 14 and 16. */
  lemma AllValue()
    ensures OrOf(INTENTS) == 0x17FFF
    ensures OrOf(INTENTS) & (1 << 15) == 0
  {
    var s := INTENTS;
    assert s[..0] == [];
    assert OrOf(s[..1]) == 0x1;
    assert s[..1] == s[..2][..1];
    assert OrOf(s[..2]) == 0x3;
    assert s[..2] == s[..3][..2];
    assert OrOf(s[..3]) == 0x7;
    assert s[..3] == s[..4][..3];
    assert OrOf(s[..4]) == 0xF;
    assert s[..4] == s[..5][..4];
    assert OrOf(s[..5]) == 0x1F;
    assert s[..5] == s[..6][..5];
    assert OrOf(s[..6]) == 0x3F;
    assert s[..6] == s[..7][..6];
    assert OrOf(s[..7]) == 0x7F;
    assert s[..7] == s[..8][..7];
    assert OrOf(s[..8]) == 0xFF;
    assert s[..8] == s[..9][..8];
    assert OrOf(s[..9]) == 0x1FF;
    assert s[..9] == s[..10][..9];
    assert OrOf(s[..10]) == 0x3FF;
    assert s[..10] == s[..11][..10];
    assert OrOf(s[..11]) == 0x7FF;
    assert s[..11] == s[..12][..11];
    assert OrOf(s[..12]) == 0xFFF;
    assert s[..12] == s[..13][..12];
    assert OrOf(s[..13]) == 0x1FFF;
    assert s[..13] == s[..14][..13];
    assert OrOf(s[..14]) == 0x3FFF;
    assert s[..14] == s[..15][..14];
    assert OrOf(s[..15]) == 0x7FFF;
    assert s[..15] == s[..16][..15];
    assert s[..16] == s;
  }

  /** One more entry: `standard` ORs it in unless it is privileged. */
  lemma StandardStep(xs: seq<(string, bv32)>, x: (string, bv32))
    ensures OrOf(Standard(xs + [x])) == if x.0 in PRIVILEGED then OrOf(Standard(xs)) else OrOf(Standard(xs)) | x.1
  {
    assert (xs + [x])[..|xs|] == xs;
    var p := Standard(xs);
    if x.0 !in PRIVILEGED {
      assert (p + [x])[..|p|] == p;
    }
  }

  /** The OR `standard` computes, walking the table and skipping privileged names. */
  function OrStandard(entries: seq<(string, bv32)>): bv32
    decreases |entries|
  {
    if |entries| == 0 then 0
    else
      var last := entries[|entries| - 1];
      OrStandard(entries[..|entries| - 1]) | (if last.0 in PRIVILEGED then 0 else last.1)
  }

  /** The last entry of a table adds its flag to the OR of `Standard` unless it
      is privileged. */
  lemma StandardLast(entries: seq<(string, bv32)>)
    requires |entries| > 0
    ensures var last := entries[|entries| - 1];
      OrOf(Standard(entries)) == OrOf(Standard(entries[..|entries| - 1])) | (if last.0 in PRIVILEGED then 0 else last.1)
  {
    var p := Standard(entries[..|entries| - 1]);
    var last := entries[|entries| - 1];
    if last.0 !in PRIVILEGED {
      assert (p + [last])[..|p|] == p;
    }
  }

  /** Skipping while walking is OR-ing the kept entries. */
  lemma {:induction false} OrStandardOfStandard(entries: seq<(string, bv32)>)
    ensures OrOf(Standard(entries)) == OrStandard(entries)
    decreases |entries|
  {
    if |entries| > 0 {
      var init := entries[..|entries| - 1];
      var last := entries[|entries| - 1];
      OrStandardOfStandard(init);
      StandardLast(entries);
    }
  }

  /** Exactly entries 1 (GUILD_MEMBERS) and 8 (GUILD_PRESENCES) are privileged. */
  lemma PrivilegedEntries()
    ensures forall i :: 0 <= i < |INTENTS| ==> (INTENTS[i].0 in PRIVILEGED <==> i == 1 || i == 8)
  {
  }

  /** The first eight entries: GUILD_MEMBERS is skipped. */
  lemma StandardFirstHalf()
    ensures OrStandard(INTENTS[..8]) == 0xFD
  {
    var s := INTENTS;
    PrivilegedEntries();
    assert s[..0] == [];
    assert s[..0] == s[..1][..0];
    assert OrStandard(s[..1]) == 0x1;
    assert s[..1] == s[..2][..1];
    assert OrStandard(s[..2]) == 0x1;
    assert s[..2] == s[..3][..2];
    assert OrStandard(s[..3]) == 0x5;
    assert s[..3] == s[..4][..3];
    assert OrStandard(s[..4]) == 0xD;
    assert s[..4] == s[..5][..4];
    assert OrStandard(s[..5]) == 0x1D;
    assert s[..5] == s[..6][..5];
    assert OrStandard(s[..6]) == 0x3D;
    assert s[..6] == s[..7][..6];
    assert OrStandard(s[..7]) == 0x7D;
    assert s[..7] == s[..8][..7];
    assert OrStandard(s[..8]) == 0xFD;
  }

  /** The remaining entries: GUILD_PRESENCES is skipped. */
  lemma StandardSecondHalf()
    ensures OrOf(Standard(INTENTS)) == 0x17EFD
  {
    var s := INTENTS;
    PrivilegedEntries();
    StandardFirstHalf();
    assert s[..8] == s[..9][..8];
    assert OrStandard(s[..9]) == 0xFD;
    assert s[..9] == s[..10][..9];
    assert OrStandard(s[..10]) == 0x2FD;
    assert s[..10] == s[..11][..10];
    assert OrStandard(s[..11]) == 0x6FD;
    assert s[..11] == s[..12][..11];
    assert OrStandard(s[..12]) == 0xEFD;
    assert s[..12] == s[..13][..12];
    assert OrStandard(s[..13]) == 0x1EFD;
    assert s[..13] == s[..14][..13];
    assert OrStandard(s[..14]) == 0x3EFD;
    assert s[..14] == s[..15][..14];
    assert OrStandard(s[..15]) == 0x7EFD;
    assert s[..15] == s[..16][..15];
    assert OrStandard(s[..16]) == 0x17EFD;
    assert s[..16] == s;
    OrStandardOfStandard(INTENTS);
  }

  /** `Intents.standard()`: `all()` without bits 1 and 8, hence a subset of it. */
  lemma StandardValue()
    ensures OrOf(Standard(INTENTS)) == 0x17EFD
    ensures OrOf(Standard(INTENTS)) == OrOf(INTENTS) & !((1 << 1) | (1 << 8))
    ensures OrOf(Standard(INTENTS)) & OrOf(INTENTS) == OrOf(Standard(INTENTS))
  {
    AllValue();
    StandardSecondHalf();
  }

  /** The loop of `Intents.all()`: every flag of the table ORed in, in order. */
  method OrFlags(entries: seq<(string, bv32)>) returns (value: bv32)
    ensures value == OrOf(entries)
  {
    value := 0;
    var i := 0;
    while i < |entries|
      invariant 0 <= i <= |entries|
      invariant value == OrOf(entries[..i])
    {
      assert entries[..i + 1][..i] == entries[..i];
      value := value | entries[i].1;
      i := i + 1;
    }
    assert entries[..i] == entries;
  }

  /** The loop of `Intents.standard()`: the flags of the table ORed in, in order,
      skipping the privileged names. */
  method OrStandardFlags(entries: seq<(string, bv32)>) returns (value: bv32)
    ensures value == OrOf(Standard(entries))
  {
    value := 0;
    var i := 0;
    while i < |entries|
      invariant 0 <= i <= |entries|
      invariant value == OrOf(Standard(entries[..i]))
    {
      assert entries[..i + 1] == entries[..i] + [entries[i]];
      StandardStep(entries[..i], entries[i]);
      var (key, flag) := entries[i];
      if key in PRIVILEGED {
        i := i + 1;
        continue;
      }
      value := value | flag;
      i := i + 1;
    }
    assert entries[..i] == entries;
  }

  /** `Intents.all()` */
  method All() returns (value: bv32)
    ensures value == OrOf(INTENTS)
    ensures value == 0x17FFF
  {
    value := OrFlags(INTENTS);
    AllValue();
  }

  /** `Intents.standard()` */
  method StandardMask() returns (value: bv32)
    ensures value == OrOf(Standard(INTENTS))
    ensures value == 0x17EFD
  {
    value := OrStandardFlags(INTENTS);
    StandardValue();
  }
}

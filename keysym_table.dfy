/** The constant table `keysymtab` of module/X11/service/rdpInputUnicode.c
    (lines 24-796): 773 pairs of an X keysym and the UCS code point it
    produces, in the table's own order. The literal is split into chunks of
    32 entries so that each chunk's ordering is checked on its own. */
module KeysymTable {
  /** `unsigned short`. */
  type u16 = x: int | 0 <= x < 0x1_0000

  /** `struct codepair`. */
  datatype CodePair = CodePair(keysym: u16, ucs: u16)

  /** Ordered non-decreasingly by ucs: what bsearch demands of its array. */
  predicate SortedByUcs(s: seq<CodePair>) {
    forall i, j | 0 <= i <= j < |s| :: s[i].ucs <= s[j].ucs
  }

  /** Each entry from position i on is no larger than its successor. */
  predicate AdjacentSorted(s: seq<CodePair>, i: nat)
    requires i <= |s|
    decreases |s| - i
  {
    i + 1 >= |s| || (s[i].ucs <= s[i + 1].ucs && AdjacentSorted(s, i + 1))
  }

  /** Neighbour-by-neighbour order gives the order of all pairs. */
  lemma {:induction false} AdjacentSortedIsSorted(s: seq<CodePair>, i: nat)
    requires i <= |s| && AdjacentSorted(s, i)
    ensures SortedByUcs(s[i..])
    decreases |s| - i
  {
    if i + 1 < |s| {
      AdjacentSortedIsSorted(s, i + 1);
      assert s[i + 1..] == s[i..][1..];
    }
  }

  /** Two sorted runs meeting in order make one sorted run. */
  lemma SortedConcat(a: seq<CodePair>, b: seq<CodePair>)
    requires SortedByUcs(a) && SortedByUcs(b)
    requires a != [] && b != [] ==> a[|a| - 1].ucs <= b[0].ucs
    ensures SortedByUcs(a + b)
  {
  }

  const Chunk0: seq<CodePair> := [
    CodePair(0xff50, 0x1),
    CodePair(0xff57, 0x4),
    CodePair(0xff6a, 0x5),
    CodePair(0xff08, 0x8),
    CodePair(0xff09, 0x9),
    CodePair(0xff0a, 0xa),
    CodePair(0xff55, 0xb),
    CodePair(0xff56, 0xc),
    CodePair(0xff0d, 0xd),
    CodePair(0xff13, 0x13),
    CodePair(0xff1b, 0x1b),
    CodePair(0xff51, 0x1c),
    CodePair(0xff53, 0x1d),
    CodePair(0xff52, 0x1e),
    CodePair(0xff54, 0x1f),
    CodePair(0xba3, 0x3c),
    CodePair(0xba6, 0x3e),
    CodePair(0xbc6, 0x5f),
    CodePair(0xffff, 0x7f),
    CodePair(0xbc0, 0xaf),
    CodePair(0x3c0, 0x100),
    CodePair(0x3e0, 0x101),
    CodePair(0x1c3, 0x102),
    CodePair(0x1e3, 0x103),
    CodePair(0x1a1, 0x104),
    CodePair(0x1b1, 0x105),
    CodePair(0x1c6, 0x106),
    CodePair(0x1e6, 0x107),
    CodePair(0x2c6, 0x108),
    CodePair(0x2e6, 0x109),
    CodePair(0x2c5, 0x10a),
    CodePair(0x2e5, 0x10b)
  ]

  const Chunk1: seq<CodePair> := [
    CodePair(0x1c8, 0x10c),
    CodePair(0x1e8, 0x10d),
    CodePair(0x1cf, 0x10e),
    CodePair(0x1ef, 0x10f),
    CodePair(0x1d0, 0x110),
    CodePair(0x1f0, 0x111),
    CodePair(0x3aa, 0x112),
    CodePair(0x3ba, 0x113),
    CodePair(0x3cc, 0x116),
    CodePair(0x3ec, 0x117),
    CodePair(0x1ca, 0x118),
    CodePair(0x1ea, 0x119),
    CodePair(0x1cc, 0x11a),
    CodePair(0x1ec, 0x11b),
    CodePair(0x2d8, 0x11c),
    CodePair(0x2f8, 0x11d),
    CodePair(0x2ab, 0x11e),
    CodePair(0x2bb, 0x11f),
    CodePair(0x2d5, 0x120),
    CodePair(0x2f5, 0x121),
    CodePair(0x3ab, 0x122),
    CodePair(0x3bb, 0x123),
    CodePair(0x2a6, 0x124),
    CodePair(0x2b6, 0x125),
    CodePair(0x2a1, 0x126),
    CodePair(0x2b1, 0x127),
    CodePair(0x3a5, 0x128),
    CodePair(0x3b5, 0x129),
    CodePair(0x3cf, 0x12a),
    CodePair(0x3ef, 0x12b),
    CodePair(0x3c7, 0x12e),
    CodePair(0x3e7, 0x12f)
  ]

  const Chunk2: seq<CodePair> := [
    CodePair(0x2a9, 0x130),
    CodePair(0x2b9, 0x131),
    CodePair(0x2ac, 0x134),
    CodePair(0x2bc, 0x135),
    CodePair(0x3d3, 0x136),
    CodePair(0x3f3, 0x137),
    CodePair(0x3a2, 0x138),
    CodePair(0x1c5, 0x139),
    CodePair(0x1e5, 0x13a),
    CodePair(0x3a6, 0x13b),
    CodePair(0x3b6, 0x13c),
    CodePair(0x1a5, 0x13d),
    CodePair(0x1b5, 0x13e),
    CodePair(0x1a3, 0x141),
    CodePair(0x1b3, 0x142),
    CodePair(0x1d1, 0x143),
    CodePair(0x1f1, 0x144),
    CodePair(0x3d1, 0x145),
    CodePair(0x3f1, 0x146),
    CodePair(0x1d2, 0x147),
    CodePair(0x1f2, 0x148),
    CodePair(0x3bd, 0x14a),
    CodePair(0x3bf, 0x14b),
    CodePair(0x3d2, 0x14c),
    CodePair(0x3f2, 0x14d),
    CodePair(0x1d5, 0x150),
    CodePair(0x1f5, 0x151),
    CodePair(0x13bc, 0x152),
    CodePair(0x13bd, 0x153),
    CodePair(0x1c0, 0x154),
    CodePair(0x1e0, 0x155),
    CodePair(0x3a3, 0x156)
  ]

  const Chunk3: seq<CodePair> := [
    CodePair(0x3b3, 0x157),
    CodePair(0x1d8, 0x158),
    CodePair(0x1f8, 0x159),
    CodePair(0x1a6, 0x15a),
    CodePair(0x1b6, 0x15b),
    CodePair(0x2de, 0x15c),
    CodePair(0x2fe, 0x15d),
    CodePair(0x1aa, 0x15e),
    CodePair(0x1ba, 0x15f),
    CodePair(0x1a9, 0x160),
    CodePair(0x1b9, 0x161),
    CodePair(0x1de, 0x162),
    CodePair(0x1fe, 0x163),
    CodePair(0x1ab, 0x164),
    CodePair(0x1bb, 0x165),
    CodePair(0x3ac, 0x166),
    CodePair(0x3bc, 0x167),
    CodePair(0x3dd, 0x168),
    CodePair(0x3fd, 0x169),
    CodePair(0x3de, 0x16a),
    CodePair(0x3fe, 0x16b),
    CodePair(0x2dd, 0x16c),
    CodePair(0x2fd, 0x16d),
    CodePair(0x1d9, 0x16e),
    CodePair(0x1f9, 0x16f),
    CodePair(0x1db, 0x170),
    CodePair(0x1fb, 0x171),
    CodePair(0x3d9, 0x172),
    CodePair(0x3f9, 0x173),
    CodePair(0x13be, 0x178),
    CodePair(0x1ac, 0x179),
    CodePair(0x1bc, 0x17a)
  ]

  const Chunk4: seq<CodePair> := [
    CodePair(0x1af, 0x17b),
    CodePair(0x1bf, 0x17c),
    CodePair(0x1ae, 0x17d),
    CodePair(0x1be, 0x17e),
    CodePair(0x8f6, 0x192),
    CodePair(0x1b7, 0x2c7),
    CodePair(0x1a2, 0x2d8),
    CodePair(0x1ff, 0x2d9),
    CodePair(0x1b2, 0x2db),
    CodePair(0x1bd, 0x2dd),
    CodePair(0x7ae, 0x385),
    CodePair(0x7a1, 0x386),
    CodePair(0x7a2, 0x388),
    CodePair(0x7a3, 0x389),
    CodePair(0x7a4, 0x38a),
    CodePair(0x7a7, 0x38c),
    CodePair(0x7a8, 0x38e),
    CodePair(0x7ab, 0x38f),
    CodePair(0x7b6, 0x390),
    CodePair(0x7c1, 0x391),
    CodePair(0x7c2, 0x392),
    CodePair(0x7c3, 0x393),
    CodePair(0x7c4, 0x394),
    CodePair(0x7c5, 0x395),
    CodePair(0x7c6, 0x396),
    CodePair(0x7c7, 0x397),
    CodePair(0x7c8, 0x398),
    CodePair(0x7c9, 0x399),
    CodePair(0x7ca, 0x39a),
    CodePair(0x7cb, 0x39b),
    CodePair(0x7cc, 0x39c),
    CodePair(0x7cd, 0x39d)
  ]

  const Chunk5: seq<CodePair> := [
    CodePair(0x7ce, 0x39e),
    CodePair(0x7cf, 0x39f),
    CodePair(0x7d0, 0x3a0),
    CodePair(0x7d1, 0x3a1),
    CodePair(0x7d2, 0x3a3),
    CodePair(0x7d4, 0x3a4),
    CodePair(0x7d5, 0x3a5),
    CodePair(0x7d6, 0x3a6),
    CodePair(0x7d7, 0x3a7),
    CodePair(0x7d8, 0x3a8),
    CodePair(0x7d9, 0x3a9),
    CodePair(0x7a5, 0x3aa),
    CodePair(0x7a9, 0x3ab),
    CodePair(0x7b1, 0x3ac),
    CodePair(0x7b2, 0x3ad),
    CodePair(0x7b3, 0x3ae),
    CodePair(0x7b4, 0x3af),
    CodePair(0x7ba, 0x3b0),
    CodePair(0x7e1, 0x3b1),
    CodePair(0x7e2, 0x3b2),
    CodePair(0x7e3, 0x3b3),
    CodePair(0x7e4, 0x3b4),
    CodePair(0x7e5, 0x3b5),
    CodePair(0x7e6, 0x3b6),
    CodePair(0x7e7, 0x3b7),
    CodePair(0x7e8, 0x3b8),
    CodePair(0x7e9, 0x3b9),
    CodePair(0x7ea, 0x3ba),
    CodePair(0x7eb, 0x3bb),
    CodePair(0x7ec, 0x3bc),
    CodePair(0x7ed, 0x3bd),
    CodePair(0x7ee, 0x3be)
  ]

  const Chunk6: seq<CodePair> := [
    CodePair(0x7ef, 0x3bf),
    CodePair(0x7f0, 0x3c0),
    CodePair(0x7f1, 0x3c1),
    CodePair(0x7f3, 0x3c2),
    CodePair(0x7f2, 0x3c3),
    CodePair(0x7f4, 0x3c4),
    CodePair(0x7f5, 0x3c5),
    CodePair(0x7f6, 0x3c6),
    CodePair(0x7f7, 0x3c7),
    CodePair(0x7f8, 0x3c8),
    CodePair(0x7f9, 0x3c9),
    CodePair(0x7b5, 0x3ca),
    CodePair(0x7b9, 0x3cb),
    CodePair(0x7b7, 0x3cc),
    CodePair(0x7b8, 0x3cd),
    CodePair(0x7bb, 0x3ce),
    CodePair(0x6b3, 0x401),
    CodePair(0x6b1, 0x402),
    CodePair(0x6b2, 0x403),
    CodePair(0x6b4, 0x404),
    CodePair(0x6b5, 0x405),
    CodePair(0x6b6, 0x406),
    CodePair(0x6b7, 0x407),
    CodePair(0x6b8, 0x408),
    CodePair(0x6b9, 0x409),
    CodePair(0x6ba, 0x40a),
    CodePair(0x6bb, 0x40b),
    CodePair(0x6bc, 0x40c),
    CodePair(0x6be, 0x40e),
    CodePair(0x6bf, 0x40f),
    CodePair(0x6e1, 0x410),
    CodePair(0x6e2, 0x411)
  ]

  const Chunk7: seq<CodePair> := [
    CodePair(0x6f7, 0x412),
    CodePair(0x6e7, 0x413),
    CodePair(0x6e4, 0x414),
    CodePair(0x6e5, 0x415),
    CodePair(0x6f6, 0x416),
    CodePair(0x6fa, 0x417),
    CodePair(0x6e9, 0x418),
    CodePair(0x6ea, 0x419),
    CodePair(0x6eb, 0x41a),
    CodePair(0x6ec, 0x41b),
    CodePair(0x6ed, 0x41c),
    CodePair(0x6ee, 0x41d),
    CodePair(0x6ef, 0x41e),
    CodePair(0x6f0, 0x41f),
    CodePair(0x6f2, 0x420),
    CodePair(0x6f3, 0x421),
    CodePair(0x6f4, 0x422),
    CodePair(0x6f5, 0x423),
    CodePair(0x6e6, 0x424),
    CodePair(0x6e8, 0x425),
    CodePair(0x6e3, 0x426),
    CodePair(0x6fe, 0x427),
    CodePair(0x6fb, 0x428),
    CodePair(0x6fd, 0x429),
    CodePair(0x6ff, 0x42a),
    CodePair(0x6f9, 0x42b),
    CodePair(0x6f8, 0x42c),
    CodePair(0x6fc, 0x42d),
    CodePair(0x6e0, 0x42e),
    CodePair(0x6f1, 0x42f),
    CodePair(0x6c1, 0x430),
    CodePair(0x6c2, 0x431)
  ]

  const Chunk8: seq<CodePair> := [
    CodePair(0x6d7, 0x432),
    CodePair(0x6c7, 0x433),
    CodePair(0x6c4, 0x434),
    CodePair(0x6c5, 0x435),
    CodePair(0x6d6, 0x436),
    CodePair(0x6da, 0x437),
    CodePair(0x6c9, 0x438),
    CodePair(0x6ca, 0x439),
    CodePair(0x6cb, 0x43a),
    CodePair(0x6cc, 0x43b),
    CodePair(0x6cd, 0x43c),
    CodePair(0x6ce, 0x43d),
    CodePair(0x6cf, 0x43e),
    CodePair(0x6d0, 0x43f),
    CodePair(0x6d2, 0x440),
    CodePair(0x6d3, 0x441),
    CodePair(0x6d4, 0x442),
    CodePair(0x6d5, 0x443),
    CodePair(0x6c6, 0x444),
    CodePair(0x6c8, 0x445),
    CodePair(0x6c3, 0x446),
    CodePair(0x6de, 0x447),
    CodePair(0x6db, 0x448),
    CodePair(0x6dd, 0x449),
    CodePair(0x6df, 0x44a),
    CodePair(0x6d9, 0x44b),
    CodePair(0x6d8, 0x44c),
    CodePair(0x6dc, 0x44d),
    CodePair(0x6c0, 0x44e),
    CodePair(0x6d1, 0x44f),
    CodePair(0x6a3, 0x451),
    CodePair(0x6a1, 0x452)
  ]

  const Chunk9: seq<CodePair> := [
    CodePair(0x6a2, 0x453),
    CodePair(0x6a4, 0x454),
    CodePair(0x6a5, 0x455),
    CodePair(0x6a6, 0x456),
    CodePair(0x6a7, 0x457),
    CodePair(0x6a8, 0x458),
    CodePair(0x6a9, 0x459),
    CodePair(0x6aa, 0x45a),
    CodePair(0x6ab, 0x45b),
    CodePair(0x6ac, 0x45c),
    CodePair(0x6ae, 0x45e),
    CodePair(0x6af, 0x45f),
    CodePair(0xce0, 0x5d0),
    CodePair(0xce1, 0x5d1),
    CodePair(0xce2, 0x5d2),
    CodePair(0xce3, 0x5d3),
    CodePair(0xce4, 0x5d4),
    CodePair(0xce5, 0x5d5),
    CodePair(0xce6, 0x5d6),
    CodePair(0xce7, 0x5d7),
    CodePair(0xce8, 0x5d8),
    CodePair(0xce9, 0x5d9),
    CodePair(0xcea, 0x5da),
    CodePair(0xceb, 0x5db),
    CodePair(0xcec, 0x5dc),
    CodePair(0xced, 0x5dd),
    CodePair(0xcee, 0x5de),
    CodePair(0xcef, 0x5df),
    CodePair(0xcf0, 0x5e0),
    CodePair(0xcf1, 0x5e1),
    CodePair(0xcf2, 0x5e2),
    CodePair(0xcf3, 0x5e3)
  ]

  const Chunk10: seq<CodePair> := [
    CodePair(0xcf4, 0x5e4),
    CodePair(0xcf5, 0x5e5),
    CodePair(0xcf6, 0x5e6),
    CodePair(0xcf7, 0x5e7),
    CodePair(0xcf8, 0x5e8),
    CodePair(0xcf9, 0x5e9),
    CodePair(0xcfa, 0x5ea),
    CodePair(0x5ac, 0x60c),
    CodePair(0x5bb, 0x61b),
    CodePair(0x5bf, 0x61f),
    CodePair(0x5c1, 0x621),
    CodePair(0x5c2, 0x622),
    CodePair(0x5c3, 0x623),
    CodePair(0x5c4, 0x624),
    CodePair(0x5c5, 0x625),
    CodePair(0x5c6, 0x626),
    CodePair(0x5c7, 0x627),
    CodePair(0x5c8, 0x628),
    CodePair(0x5c9, 0x629),
    CodePair(0x5ca, 0x62a),
    CodePair(0x5cb, 0x62b),
    CodePair(0x5cc, 0x62c),
    CodePair(0x5cd, 0x62d),
    CodePair(0x5ce, 0x62e),
    CodePair(0x5cf, 0x62f),
    CodePair(0x5d0, 0x630),
    CodePair(0x5d1, 0x631),
    CodePair(0x5d2, 0x632),
    CodePair(0x5d3, 0x633),
    CodePair(0x5d4, 0x634),
    CodePair(0x5d5, 0x635),
    CodePair(0x5d6, 0x636)
  ]

  const Chunk11: seq<CodePair> := [
    CodePair(0x5d7, 0x637),
    CodePair(0x5d8, 0x638),
    CodePair(0x5d9, 0x639),
    CodePair(0x5da, 0x63a),
    CodePair(0x5e0, 0x640),
    CodePair(0x5e1, 0x641),
    CodePair(0x5e2, 0x642),
    CodePair(0x5e3, 0x643),
    CodePair(0x5e4, 0x644),
    CodePair(0x5e5, 0x645),
    CodePair(0x5e6, 0x646),
    CodePair(0x5e7, 0x647),
    CodePair(0x5e8, 0x648),
    CodePair(0x5e9, 0x649),
    CodePair(0x5ea, 0x64a),
    CodePair(0x5eb, 0x64b),
    CodePair(0x5ec, 0x64c),
    CodePair(0x5ed, 0x64d),
    CodePair(0x5ee, 0x64e),
    CodePair(0x5ef, 0x64f),
    CodePair(0x5f0, 0x650),
    CodePair(0x5f1, 0x651),
    CodePair(0x5f2, 0x652),
    CodePair(0xda1, 0xe01),
    CodePair(0xda2, 0xe02),
    CodePair(0xda3, 0xe03),
    CodePair(0xda4, 0xe04),
    CodePair(0xda5, 0xe05),
    CodePair(0xda6, 0xe06),
    CodePair(0xda7, 0xe07),
    CodePair(0xda8, 0xe08),
    CodePair(0xda9, 0xe09)
  ]

  const Chunk12: seq<CodePair> := [
    CodePair(0xdaa, 0xe0a),
    CodePair(0xdab, 0xe0b),
    CodePair(0xdac, 0xe0c),
    CodePair(0xdad, 0xe0d),
    CodePair(0xdae, 0xe0e),
    CodePair(0xdaf, 0xe0f),
    CodePair(0xdb0, 0xe10),
    CodePair(0xdb1, 0xe11),
    CodePair(0xdb2, 0xe12),
    CodePair(0xdb3, 0xe13),
    CodePair(0xdb4, 0xe14),
    CodePair(0xdb5, 0xe15),
    CodePair(0xdb6, 0xe16),
    CodePair(0xdb7, 0xe17),
    CodePair(0xdb8, 0xe18),
    CodePair(0xdb9, 0xe19),
    CodePair(0xdba, 0xe1a),
    CodePair(0xdbb, 0xe1b),
    CodePair(0xdbc, 0xe1c),
    CodePair(0xdbd, 0xe1d),
    CodePair(0xdbe, 0xe1e),
    CodePair(0xdbf, 0xe1f),
    CodePair(0xdc0, 0xe20),
    CodePair(0xdc1, 0xe21),
    CodePair(0xdc2, 0xe22),
    CodePair(0xdc3, 0xe23),
    CodePair(0xdc4, 0xe24),
    CodePair(0xdc5, 0xe25),
    CodePair(0xdc6, 0xe26),
    CodePair(0xdc7, 0xe27),
    CodePair(0xdc8, 0xe28),
    CodePair(0xdc9, 0xe29)
  ]

  const Chunk13: seq<CodePair> := [
    CodePair(0xdca, 0xe2a),
    CodePair(0xdcb, 0xe2b),
    CodePair(0xdcc, 0xe2c),
    CodePair(0xdcd, 0xe2d),
    CodePair(0xdce, 0xe2e),
    CodePair(0xdcf, 0xe2f),
    CodePair(0xdd0, 0xe30),
    CodePair(0xdd1, 0xe31),
    CodePair(0xdd2, 0xe32),
    CodePair(0xdd3, 0xe33),
    CodePair(0xdd4, 0xe34),
    CodePair(0xdd5, 0xe35),
    CodePair(0xdd6, 0xe36),
    CodePair(0xdd7, 0xe37),
    CodePair(0xdd8, 0xe38),
    CodePair(0xdd9, 0xe39),
    CodePair(0xdda, 0xe3a),
    CodePair(0xddf, 0xe3f),
    CodePair(0xde0, 0xe40),
    CodePair(0xde1, 0xe41),
    CodePair(0xde2, 0xe42),
    CodePair(0xde3, 0xe43),
    CodePair(0xde4, 0xe44),
    CodePair(0xde5, 0xe45),
    CodePair(0xde6, 0xe46),
    CodePair(0xde7, 0xe47),
    CodePair(0xde8, 0xe48),
    CodePair(0xde9, 0xe49),
    CodePair(0xdea, 0xe4a),
    CodePair(0xdeb, 0xe4b),
    CodePair(0xdec, 0xe4c),
    CodePair(0xded, 0xe4d)
  ]

  const Chunk14: seq<CodePair> := [
    CodePair(0xdf0, 0xe50),
    CodePair(0xdf1, 0xe51),
    CodePair(0xdf2, 0xe52),
    CodePair(0xdf3, 0xe53),
    CodePair(0xdf4, 0xe54),
    CodePair(0xdf5, 0xe55),
    CodePair(0xdf6, 0xe56),
    CodePair(0xdf7, 0xe57),
    CodePair(0xdf8, 0xe58),
    CodePair(0xdf9, 0xe59),
    CodePair(0xed4, 0x11a8),
    CodePair(0xed5, 0x11a9),
    CodePair(0xed6, 0x11aa),
    CodePair(0xed7, 0x11ab),
    CodePair(0xed8, 0x11ac),
    CodePair(0xed9, 0x11ad),
    CodePair(0xeda, 0x11ae),
    CodePair(0xedb, 0x11af),
    CodePair(0xedc, 0x11b0),
    CodePair(0xedd, 0x11b1),
    CodePair(0xede, 0x11b2),
    CodePair(0xedf, 0x11b3),
    CodePair(0xee0, 0x11b4),
    CodePair(0xee1, 0x11b5),
    CodePair(0xee2, 0x11b6),
    CodePair(0xee3, 0x11b7),
    CodePair(0xee4, 0x11b8),
    CodePair(0xee5, 0x11b9),
    CodePair(0xee6, 0x11ba),
    CodePair(0xee7, 0x11bb),
    CodePair(0xee8, 0x11bc),
    CodePair(0xee9, 0x11bd)
  ]

  const Chunk15: seq<CodePair> := [
    CodePair(0xeea, 0x11be),
    CodePair(0xeeb, 0x11bf),
    CodePair(0xeec, 0x11c0),
    CodePair(0xeed, 0x11c1),
    CodePair(0xeee, 0x11c2),
    CodePair(0xef8, 0x11eb),
    CodePair(0xef9, 0x11f0),
    CodePair(0xefa, 0x11f9),
    CodePair(0xaa2, 0x2002),
    CodePair(0xaa1, 0x2003),
    CodePair(0xaa3, 0x2004),
    CodePair(0xaa4, 0x2005),
    CodePair(0xaa5, 0x2007),
    CodePair(0xaa6, 0x2008),
    CodePair(0xaa7, 0x2009),
    CodePair(0xaa8, 0x200a),
    CodePair(0xabb, 0x2012),
    CodePair(0xaaa, 0x2013),
    CodePair(0xaa9, 0x2014),
    CodePair(0x7af, 0x2015),
    CodePair(0xcdf, 0x2017),
    CodePair(0xad0, 0x2018),
    CodePair(0xad1, 0x2019),
    CodePair(0xafd, 0x201a),
    CodePair(0xad2, 0x201c),
    CodePair(0xad3, 0x201d),
    CodePair(0xafe, 0x201e),
    CodePair(0xaf1, 0x2020),
    CodePair(0xaf2, 0x2021),
    CodePair(0xae6, 0x2022),
    CodePair(0xaaf, 0x2025),
    CodePair(0xaae, 0x2026)
  ]

  const Chunk16: seq<CodePair> := [
    CodePair(0xad6, 0x2032),
    CodePair(0xad7, 0x2033),
    CodePair(0xafc, 0x2038),
    CodePair(0x47e, 0x203e),
    CodePair(0xeff, 0x20a9),
    CodePair(0x20ac, 0x20ac),
    CodePair(0xab8, 0x2105),
    CodePair(0x6b0, 0x2116),
    CodePair(0xafb, 0x2117),
    CodePair(0xad4, 0x211e),
    CodePair(0xac9, 0x2122),
    CodePair(0xab0, 0x2153),
    CodePair(0xab1, 0x2154),
    CodePair(0xab2, 0x2155),
    CodePair(0xab3, 0x2156),
    CodePair(0xab4, 0x2157),
    CodePair(0xab5, 0x2158),
    CodePair(0xab6, 0x2159),
    CodePair(0xab7, 0x215a),
    CodePair(0xac3, 0x215b),
    CodePair(0xac4, 0x215c),
    CodePair(0xac5, 0x215d),
    CodePair(0xac6, 0x215e),
    CodePair(0x8fb, 0x2190),
    CodePair(0x8fc, 0x2191),
    CodePair(0x8fd, 0x2192),
    CodePair(0x8fe, 0x2193),
    CodePair(0x8ce, 0x21d2),
    CodePair(0x8cd, 0x21d4),
    CodePair(0x8ef, 0x2202),
    CodePair(0x8c5, 0x2207),
    CodePair(0xbca, 0x2218)
  ]

  const Chunk17: seq<CodePair> := [
    CodePair(0x8d6, 0x221a),
    CodePair(0x8c1, 0x221d),
    CodePair(0x8c2, 0x221e),
    CodePair(0x8de, 0x2227),
    CodePair(0xba9, 0x2227),
    CodePair(0x8df, 0x2228),
    CodePair(0xba8, 0x2228),
    CodePair(0x8dc, 0x2229),
    CodePair(0xbc3, 0x2229),
    CodePair(0x8dd, 0x222a),
    CodePair(0xbd6, 0x222a),
    CodePair(0x8bf, 0x222b),
    CodePair(0x8c0, 0x2234),
    CodePair(0x8c8, 0x223c),
    CodePair(0x8c9, 0x2243),
    CodePair(0x8bd, 0x2260),
    CodePair(0x8cf, 0x2261),
    CodePair(0x8bc, 0x2264),
    CodePair(0x8be, 0x2265),
    CodePair(0x8da, 0x2282),
    CodePair(0xbda, 0x2282),
    CodePair(0x8db, 0x2283),
    CodePair(0xbd8, 0x2283),
    CodePair(0xbdc, 0x22a2),
    CodePair(0xbfc, 0x22a3),
    CodePair(0xbce, 0x22a4),
    CodePair(0xbc2, 0x22a5),
    CodePair(0xbd3, 0x2308),
    CodePair(0xbc4, 0x230a),
    CodePair(0xafa, 0x2315),
    CodePair(0x8a4, 0x2320),
    CodePair(0x8a5, 0x2321)
  ]

  const Chunk18: seq<CodePair> := [
    CodePair(0xabc, 0x2329),
    CodePair(0xabe, 0x232a),
    CodePair(0xbcc, 0x2395),
    CodePair(0x8ab, 0x239b),
    CodePair(0x8ac, 0x239d),
    CodePair(0x8ad, 0x239e),
    CodePair(0x8ae, 0x23a0),
    CodePair(0x8a7, 0x23a1),
    CodePair(0x8a8, 0x23a3),
    CodePair(0x8a9, 0x23a4),
    CodePair(0x8aa, 0x23a6),
    CodePair(0x8af, 0x23a8),
    CodePair(0x8b0, 0x23ac),
    CodePair(0x8a1, 0x23b7),
    CodePair(0x9ef, 0x23ba),
    CodePair(0x9f0, 0x23bb),
    CodePair(0x9f2, 0x23bc),
    CodePair(0x9f3, 0x23bd),
    CodePair(0x9e2, 0x2409),
    CodePair(0x9e5, 0x240a),
    CodePair(0x9e9, 0x240b),
    CodePair(0x9e3, 0x240c),
    CodePair(0x9e4, 0x240d),
    CodePair(0x9e8, 0x2424),
    CodePair(0x8a3, 0x2500),
    CodePair(0x9f1, 0x2500),
    CodePair(0x8a6, 0x2502),
    CodePair(0x9f8, 0x2502),
    CodePair(0x8a2, 0x250c),
    CodePair(0x9ec, 0x250c),
    CodePair(0x9eb, 0x2510),
    CodePair(0x9ed, 0x2514)
  ]

  const Chunk19: seq<CodePair> := [
    CodePair(0x9ea, 0x2518),
    CodePair(0x9f4, 0x251c),
    CodePair(0x9f5, 0x2524),
    CodePair(0x9f7, 0x252c),
    CodePair(0x9f6, 0x2534),
    CodePair(0x9ee, 0x253c),
    CodePair(0x9e1, 0x2592),
    CodePair(0xae7, 0x25aa),
    CodePair(0xae1, 0x25ab),
    CodePair(0xadb, 0x25ac),
    CodePair(0xae2, 0x25ad),
    CodePair(0xadf, 0x25ae),
    CodePair(0xacf, 0x25af),
    CodePair(0xae8, 0x25b2),
    CodePair(0xae3, 0x25b3),
    CodePair(0xadd, 0x25b6),
    CodePair(0xacd, 0x25b7),
    CodePair(0xae9, 0x25bc),
    CodePair(0xae4, 0x25bd),
    CodePair(0xadc, 0x25c0),
    CodePair(0xacc, 0x25c1),
    CodePair(0x9e0, 0x25c6),
    CodePair(0xace, 0x25cb),
    CodePair(0xbcf, 0x25cb),
    CodePair(0xade, 0x25cf),
    CodePair(0xae0, 0x25e6),
    CodePair(0xae5, 0x2606),
    CodePair(0xaf9, 0x260e),
    CodePair(0xaca, 0x2613),
    CodePair(0xaea, 0x261c),
    CodePair(0xaeb, 0x261e),
    CodePair(0xaf8, 0x2640)
  ]

  const Chunk20: seq<CodePair> := [
    CodePair(0xaf7, 0x2642),
    CodePair(0xaec, 0x2663),
    CodePair(0xaee, 0x2665),
    CodePair(0xaed, 0x2666),
    CodePair(0xaf6, 0x266d),
    CodePair(0xaf5, 0x266f),
    CodePair(0xaf3, 0x2713),
    CodePair(0xaf4, 0x2717),
    CodePair(0xad9, 0x271d),
    CodePair(0xaf0, 0x2720),
    CodePair(0x4a4, 0x3001),
    CodePair(0x4a1, 0x3002),
    CodePair(0x4a2, 0x300c),
    CodePair(0x4a3, 0x300d),
    CodePair(0x4de, 0x309b),
    CodePair(0x4df, 0x309c),
    CodePair(0x4a7, 0x30a1),
    CodePair(0x4b1, 0x30a2),
    CodePair(0x4a8, 0x30a3),
    CodePair(0x4b2, 0x30a4),
    CodePair(0x4a9, 0x30a5),
    CodePair(0x4b3, 0x30a6),
    CodePair(0x4aa, 0x30a7),
    CodePair(0x4b4, 0x30a8),
    CodePair(0x4ab, 0x30a9),
    CodePair(0x4b5, 0x30aa),
    CodePair(0x4b6, 0x30ab),
    CodePair(0x4b7, 0x30ad),
    CodePair(0x4b8, 0x30af),
    CodePair(0x4b9, 0x30b1),
    CodePair(0x4ba, 0x30b3),
    CodePair(0x4bb, 0x30b5)
  ]

  const Chunk21: seq<CodePair> := [
    CodePair(0x4bc, 0x30b7),
    CodePair(0x4bd, 0x30b9),
    CodePair(0x4be, 0x30bb),
    CodePair(0x4bf, 0x30bd),
    CodePair(0x4c0, 0x30bf),
    CodePair(0x4c1, 0x30c1),
    CodePair(0x4af, 0x30c3),
    CodePair(0x4c2, 0x30c4),
    CodePair(0x4c3, 0x30c6),
    CodePair(0x4c4, 0x30c8),
    CodePair(0x4c5, 0x30ca),
    CodePair(0x4c6, 0x30cb),
    CodePair(0x4c7, 0x30cc),
    CodePair(0x4c8, 0x30cd),
    CodePair(0x4c9, 0x30ce),
    CodePair(0x4ca, 0x30cf),
    CodePair(0x4cb, 0x30d2),
    CodePair(0x4cc, 0x30d5),
    CodePair(0x4cd, 0x30d8),
    CodePair(0x4ce, 0x30db),
    CodePair(0x4cf, 0x30de),
    CodePair(0x4d0, 0x30df),
    CodePair(0x4d1, 0x30e0),
    CodePair(0x4d2, 0x30e1),
    CodePair(0x4d3, 0x30e2),
    CodePair(0x4ac, 0x30e3),
    CodePair(0x4d4, 0x30e4),
    CodePair(0x4ad, 0x30e5),
    CodePair(0x4d5, 0x30e6),
    CodePair(0x4ae, 0x30e7),
    CodePair(0x4d6, 0x30e8),
    CodePair(0x4d7, 0x30e9)
  ]

  const Chunk22: seq<CodePair> := [
    CodePair(0x4d8, 0x30ea),
    CodePair(0x4d9, 0x30eb),
    CodePair(0x4da, 0x30ec),
    CodePair(0x4db, 0x30ed),
    CodePair(0x4dc, 0x30ef),
    CodePair(0x4a6, 0x30f2),
    CodePair(0x4dd, 0x30f3),
    CodePair(0x4a5, 0x30fb),
    CodePair(0x4b0, 0x30fc),
    CodePair(0xea1, 0x3131),
    CodePair(0xea2, 0x3132),
    CodePair(0xea3, 0x3133),
    CodePair(0xea4, 0x3134),
    CodePair(0xea5, 0x3135),
    CodePair(0xea6, 0x3136),
    CodePair(0xea7, 0x3137),
    CodePair(0xea8, 0x3138),
    CodePair(0xea9, 0x3139),
    CodePair(0xeaa, 0x313a),
    CodePair(0xeab, 0x313b),
    CodePair(0xeac, 0x313c),
    CodePair(0xead, 0x313d),
    CodePair(0xeae, 0x313e),
    CodePair(0xeaf, 0x313f),
    CodePair(0xeb0, 0x3140),
    CodePair(0xeb1, 0x3141),
    CodePair(0xeb2, 0x3142),
    CodePair(0xeb3, 0x3143),
    CodePair(0xeb4, 0x3144),
    CodePair(0xeb5, 0x3145),
    CodePair(0xeb6, 0x3146),
    CodePair(0xeb7, 0x3147)
  ]

  const Chunk23: seq<CodePair> := [
    CodePair(0xeb8, 0x3148),
    CodePair(0xeb9, 0x3149),
    CodePair(0xeba, 0x314a),
    CodePair(0xebb, 0x314b),
    CodePair(0xebc, 0x314c),
    CodePair(0xebd, 0x314d),
    CodePair(0xebe, 0x314e),
    CodePair(0xebf, 0x314f),
    CodePair(0xec0, 0x3150),
    CodePair(0xec1, 0x3151),
    CodePair(0xec2, 0x3152),
    CodePair(0xec3, 0x3153),
    CodePair(0xec4, 0x3154),
    CodePair(0xec5, 0x3155),
    CodePair(0xec6, 0x3156),
    CodePair(0xec7, 0x3157),
    CodePair(0xec8, 0x3158),
    CodePair(0xec9, 0x3159),
    CodePair(0xeca, 0x315a),
    CodePair(0xecb, 0x315b),
    CodePair(0xecc, 0x315c),
    CodePair(0xecd, 0x315d),
    CodePair(0xece, 0x315e),
    CodePair(0xecf, 0x315f),
    CodePair(0xed0, 0x3160),
    CodePair(0xed1, 0x3161),
    CodePair(0xed2, 0x3162),
    CodePair(0xed3, 0x3163),
    CodePair(0xeef, 0x316d),
    CodePair(0xef0, 0x3171),
    CodePair(0xef1, 0x3178),
    CodePair(0xef2, 0x317f)
  ]

  const Chunk24: seq<CodePair> := [
    CodePair(0xef3, 0x3181),
    CodePair(0xef4, 0x3184),
    CodePair(0xef5, 0x3186),
    CodePair(0xef6, 0x318d),
    CodePair(0xef7, 0x318e)
  ]

  /** keysymtab, all 773 entries. */
  const Table: seq<CodePair> :=
    Chunk0 + Chunk1 + Chunk2 + Chunk3 + Chunk4 + Chunk5 + Chunk6 + Chunk7 + Chunk8 + Chunk9 + Chunk10 + Chunk11 + Chunk12 + Chunk13 + Chunk14 + Chunk15 + Chunk16 + Chunk17 + Chunk18 + Chunk19 + Chunk20 + Chunk21 + Chunk22 + Chunk23 + Chunk24

  lemma Chunk0Sorted()
    ensures SortedByUcs(Chunk0)
  {
    assert AdjacentSorted(Chunk0, 31);
    assert AdjacentSorted(Chunk0, 30);
    assert AdjacentSorted(Chunk0, 29);
    assert AdjacentSorted(Chunk0, 28);
    assert AdjacentSorted(Chunk0, 27);
    assert AdjacentSorted(Chunk0, 26);
    assert AdjacentSorted(Chunk0, 25);
    assert AdjacentSorted(Chunk0, 24);
    assert AdjacentSorted(Chunk0, 23);
    assert AdjacentSorted(Chunk0, 22);
    assert AdjacentSorted(Chunk0, 21);
    assert AdjacentSorted(Chunk0, 20);
    assert AdjacentSorted(Chunk0, 19);
    assert AdjacentSorted(Chunk0, 18);
    assert AdjacentSorted(Chunk0, 17);
    assert AdjacentSorted(Chunk0, 16);
    assert AdjacentSorted(Chunk0, 15);
    assert AdjacentSorted(Chunk0, 14);
    assert AdjacentSorted(Chunk0, 13);
    assert AdjacentSorted(Chunk0, 12);
    assert AdjacentSorted(Chunk0, 11);
    assert AdjacentSorted(Chunk0, 10);
    assert AdjacentSorted(Chunk0, 9);
    assert AdjacentSorted(Chunk0, 8);
    assert AdjacentSorted(Chunk0, 7);
    assert AdjacentSorted(Chunk0, 6);
    assert AdjacentSorted(Chunk0, 5);
    assert AdjacentSorted(Chunk0, 4);
    assert AdjacentSorted(Chunk0, 3);
    assert AdjacentSorted(Chunk0, 2);
    assert AdjacentSorted(Chunk0, 1);
    assert AdjacentSorted(Chunk0, 0);
    AdjacentSortedIsSorted(Chunk0, 0);
    assert Chunk0[0..] == Chunk0;
  }

  lemma Chunk1Sorted()
    ensures SortedByUcs(Chunk1)
  {
    assert AdjacentSorted(Chunk1, 31);
    assert AdjacentSorted(Chunk1, 30);
    assert AdjacentSorted(Chunk1, 29);
    assert AdjacentSorted(Chunk1, 28);
    assert AdjacentSorted(Chunk1, 27);
    assert AdjacentSorted(Chunk1, 26);
    assert AdjacentSorted(Chunk1, 25);
    assert AdjacentSorted(Chunk1, 24);
    assert AdjacentSorted(Chunk1, 23);
    assert AdjacentSorted(Chunk1, 22);
    assert AdjacentSorted(Chunk1, 21);
    assert AdjacentSorted(Chunk1, 20);
    assert AdjacentSorted(Chunk1, 19);
    assert AdjacentSorted(Chunk1, 18);
    assert AdjacentSorted(Chunk1, 17);
    assert AdjacentSorted(Chunk1, 16);
    assert AdjacentSorted(Chunk1, 15);
    assert AdjacentSorted(Chunk1, 14);
    assert AdjacentSorted(Chunk1, 13);
    assert AdjacentSorted(Chunk1, 12);
    assert AdjacentSorted(Chunk1, 11);
    assert AdjacentSorted(Chunk1, 10);
    assert AdjacentSorted(Chunk1, 9);
    assert AdjacentSorted(Chunk1, 8);
    assert AdjacentSorted(Chunk1, 7);
    assert AdjacentSorted(Chunk1, 6);
    assert AdjacentSorted(Chunk1, 5);
    assert AdjacentSorted(Chunk1, 4);
    assert AdjacentSorted(Chunk1, 3);
    assert AdjacentSorted(Chunk1, 2);
    assert AdjacentSorted(Chunk1, 1);
    assert AdjacentSorted(Chunk1, 0);
    AdjacentSortedIsSorted(Chunk1, 0);
    assert Chunk1[0..] == Chunk1;
  }

  lemma Chunk2Sorted()
    ensures SortedByUcs(Chunk2)
  {
    assert AdjacentSorted(Chunk2, 31);
    assert AdjacentSorted(Chunk2, 30);
    assert AdjacentSorted(Chunk2, 29);
    assert AdjacentSorted(Chunk2, 28);
    assert AdjacentSorted(Chunk2, 27);
    assert AdjacentSorted(Chunk2, 26);
    assert AdjacentSorted(Chunk2, 25);
    assert AdjacentSorted(Chunk2, 24);
    assert AdjacentSorted(Chunk2, 23);
    assert AdjacentSorted(Chunk2, 22);
    assert AdjacentSorted(Chunk2, 21);
    assert AdjacentSorted(Chunk2, 20);
    assert AdjacentSorted(Chunk2, 19);
    assert AdjacentSorted(Chunk2, 18);
    assert AdjacentSorted(Chunk2, 17);
    assert AdjacentSorted(Chunk2, 16);
    assert AdjacentSorted(Chunk2, 15);
    assert AdjacentSorted(Chunk2, 14);
    assert AdjacentSorted(Chunk2, 13);
    assert AdjacentSorted(Chunk2, 12);
    assert AdjacentSorted(Chunk2, 11);
    assert AdjacentSorted(Chunk2, 10);
    assert AdjacentSorted(Chunk2, 9);
    assert AdjacentSorted(Chunk2, 8);
    assert AdjacentSorted(Chunk2, 7);
    assert AdjacentSorted(Chunk2, 6);
    assert AdjacentSorted(Chunk2, 5);
    assert AdjacentSorted(Chunk2, 4);
    assert AdjacentSorted(Chunk2, 3);
    assert AdjacentSorted(Chunk2, 2);
    assert AdjacentSorted(Chunk2, 1);
    assert AdjacentSorted(Chunk2, 0);
    AdjacentSortedIsSorted(Chunk2, 0);
    assert Chunk2[0..] == Chunk2;
  }

  lemma Chunk3Sorted()
    ensures SortedByUcs(Chunk3)
  {
    assert AdjacentSorted(Chunk3, 31);
    assert AdjacentSorted(Chunk3, 30);
    assert AdjacentSorted(Chunk3, 29);
    assert AdjacentSorted(Chunk3, 28);
    assert AdjacentSorted(Chunk3, 27);
    assert AdjacentSorted(Chunk3, 26);
    assert AdjacentSorted(Chunk3, 25);
    assert AdjacentSorted(Chunk3, 24);
    assert AdjacentSorted(Chunk3, 23);
    assert AdjacentSorted(Chunk3, 22);
    assert AdjacentSorted(Chunk3, 21);
    assert AdjacentSorted(Chunk3, 20);
    assert AdjacentSorted(Chunk3, 19);
    assert AdjacentSorted(Chunk3, 18);
    assert AdjacentSorted(Chunk3, 17);
    assert AdjacentSorted(Chunk3, 16);
    assert AdjacentSorted(Chunk3, 15);
    assert AdjacentSorted(Chunk3, 14);
    assert AdjacentSorted(Chunk3, 13);
    assert AdjacentSorted(Chunk3, 12);
    assert AdjacentSorted(Chunk3, 11);
    assert AdjacentSorted(Chunk3, 10);
    assert AdjacentSorted(Chunk3, 9);
    assert AdjacentSorted(Chunk3, 8);
    assert AdjacentSorted(Chunk3, 7);
    assert AdjacentSorted(Chunk3, 6);
    assert AdjacentSorted(Chunk3, 5);
    assert AdjacentSorted(Chunk3, 4);
    assert AdjacentSorted(Chunk3, 3);
    assert AdjacentSorted(Chunk3, 2);
    assert AdjacentSorted(Chunk3, 1);
    assert AdjacentSorted(Chunk3, 0);
    AdjacentSortedIsSorted(Chunk3, 0);
    assert Chunk3[0..] == Chunk3;
  }

  lemma Chunk4Sorted()
    ensures SortedByUcs(Chunk4)
  {
    assert AdjacentSorted(Chunk4, 31);
    assert AdjacentSorted(Chunk4, 30);
    assert AdjacentSorted(Chunk4, 29);
    assert AdjacentSorted(Chunk4, 28);
    assert AdjacentSorted(Chunk4, 27);
    assert AdjacentSorted(Chunk4, 26);
    assert AdjacentSorted(Chunk4, 25);
    assert AdjacentSorted(Chunk4, 24);
    assert AdjacentSorted(Chunk4, 23);
    assert AdjacentSorted(Chunk4, 22);
    assert AdjacentSorted(Chunk4, 21);
    assert AdjacentSorted(Chunk4, 20);
    assert AdjacentSorted(Chunk4, 19);
    assert AdjacentSorted(Chunk4, 18);
    assert AdjacentSorted(Chunk4, 17);
    assert AdjacentSorted(Chunk4, 16);
    assert AdjacentSorted(Chunk4, 15);
    assert AdjacentSorted(Chunk4, 14);
    assert AdjacentSorted(Chunk4, 13);
    assert AdjacentSorted(Chunk4, 12);
    assert AdjacentSorted(Chunk4, 11);
    assert AdjacentSorted(Chunk4, 10);
    assert AdjacentSorted(Chunk4, 9);
    assert AdjacentSorted(Chunk4, 8);
    assert AdjacentSorted(Chunk4, 7);
    assert AdjacentSorted(Chunk4, 6);
    assert AdjacentSorted(Chunk4, 5);
    assert AdjacentSorted(Chunk4, 4);
    assert AdjacentSorted(Chunk4, 3);
    assert AdjacentSorted(Chunk4, 2);
    assert AdjacentSorted(Chunk4, 1);
    assert AdjacentSorted(Chunk4, 0);
    AdjacentSortedIsSorted(Chunk4, 0);
    assert Chunk4[0..] == Chunk4;
  }

  lemma Chunk5Sorted()
    ensures SortedByUcs(Chunk5)
  {
    assert AdjacentSorted(Chunk5, 31);
    assert AdjacentSorted(Chunk5, 30);
    assert AdjacentSorted(Chunk5, 29);
    assert AdjacentSorted(Chunk5, 28);
    assert AdjacentSorted(Chunk5, 27);
    assert AdjacentSorted(Chunk5, 26);
    assert AdjacentSorted(Chunk5, 25);
    assert AdjacentSorted(Chunk5, 24);
    assert AdjacentSorted(Chunk5, 23);
    assert AdjacentSorted(Chunk5, 22);
    assert AdjacentSorted(Chunk5, 21);
    assert AdjacentSorted(Chunk5, 20);
    assert AdjacentSorted(Chunk5, 19);
    assert AdjacentSorted(Chunk5, 18);
    assert AdjacentSorted(Chunk5, 17);
    assert AdjacentSorted(Chunk5, 16);
    assert AdjacentSorted(Chunk5, 15);
    assert AdjacentSorted(Chunk5, 14);
    assert AdjacentSorted(Chunk5, 13);
    assert AdjacentSorted(Chunk5, 12);
    assert AdjacentSorted(Chunk5, 11);
    assert AdjacentSorted(Chunk5, 10);
    assert AdjacentSorted(Chunk5, 9);
    assert AdjacentSorted(Chunk5, 8);
    assert AdjacentSorted(Chunk5, 7);
    assert AdjacentSorted(Chunk5, 6);
    assert AdjacentSorted(Chunk5, 5);
    assert AdjacentSorted(Chunk5, 4);
    assert AdjacentSorted(Chunk5, 3);
    assert AdjacentSorted(Chunk5, 2);
    assert AdjacentSorted(Chunk5, 1);
    assert AdjacentSorted(Chunk5, 0);
    AdjacentSortedIsSorted(Chunk5, 0);
    assert Chunk5[0..] == Chunk5;
  }

  lemma Chunk6Sorted()
    ensures SortedByUcs(Chunk6)
  {
    assert AdjacentSorted(Chunk6, 31);
    assert AdjacentSorted(Chunk6, 30);
    assert AdjacentSorted(Chunk6, 29);
    assert AdjacentSorted(Chunk6, 28);
    assert AdjacentSorted(Chunk6, 27);
    assert AdjacentSorted(Chunk6, 26);
    assert AdjacentSorted(Chunk6, 25);
    assert AdjacentSorted(Chunk6, 24);
    assert AdjacentSorted(Chunk6, 23);
    assert AdjacentSorted(Chunk6, 22);
    assert AdjacentSorted(Chunk6, 21);
    assert AdjacentSorted(Chunk6, 20);
    assert AdjacentSorted(Chunk6, 19);
    assert AdjacentSorted(Chunk6, 18);
    assert AdjacentSorted(Chunk6, 17);
    assert AdjacentSorted(Chunk6, 16);
    assert AdjacentSorted(Chunk6, 15);
    assert AdjacentSorted(Chunk6, 14);
    assert AdjacentSorted(Chunk6, 13);
    assert AdjacentSorted(Chunk6, 12);
    assert AdjacentSorted(Chunk6, 11);
    assert AdjacentSorted(Chunk6, 10);
    assert AdjacentSorted(Chunk6, 9);
    assert AdjacentSorted(Chunk6, 8);
    assert AdjacentSorted(Chunk6, 7);
    assert AdjacentSorted(Chunk6, 6);
    assert AdjacentSorted(Chunk6, 5);
    assert AdjacentSorted(Chunk6, 4);
    assert AdjacentSorted(Chunk6, 3);
    assert AdjacentSorted(Chunk6, 2);
    assert AdjacentSorted(Chunk6, 1);
    assert AdjacentSorted(Chunk6, 0);
    AdjacentSortedIsSorted(Chunk6, 0);
    assert Chunk6[0..] == Chunk6;
  }

  lemma Chunk7Sorted()
    ensures SortedByUcs(Chunk7)
  {
    assert AdjacentSorted(Chunk7, 31);
    assert AdjacentSorted(Chunk7, 30);
    assert AdjacentSorted(Chunk7, 29);
    assert AdjacentSorted(Chunk7, 28);
    assert AdjacentSorted(Chunk7, 27);
    assert AdjacentSorted(Chunk7, 26);
    assert AdjacentSorted(Chunk7, 25);
    assert AdjacentSorted(Chunk7, 24);
    assert AdjacentSorted(Chunk7, 23);
    assert AdjacentSorted(Chunk7, 22);
    assert AdjacentSorted(Chunk7, 21);
    assert AdjacentSorted(Chunk7, 20);
    assert AdjacentSorted(Chunk7, 19);
    assert AdjacentSorted(Chunk7, 18);
    assert AdjacentSorted(Chunk7, 17);
    assert AdjacentSorted(Chunk7, 16);
    assert AdjacentSorted(Chunk7, 15);
    assert AdjacentSorted(Chunk7, 14);
    assert AdjacentSorted(Chunk7, 13);
    assert AdjacentSorted(Chunk7, 12);
    assert AdjacentSorted(Chunk7, 11);
    assert AdjacentSorted(Chunk7, 10);
    assert AdjacentSorted(Chunk7, 9);
    assert AdjacentSorted(Chunk7, 8);
    assert AdjacentSorted(Chunk7, 7);
    assert AdjacentSorted(Chunk7, 6);
    assert AdjacentSorted(Chunk7, 5);
    assert AdjacentSorted(Chunk7, 4);
    assert AdjacentSorted(Chunk7, 3);
    assert AdjacentSorted(Chunk7, 2);
    assert AdjacentSorted(Chunk7, 1);
    assert AdjacentSorted(Chunk7, 0);
    AdjacentSortedIsSorted(Chunk7, 0);
    assert Chunk7[0..] == Chunk7;
  }

  lemma Chunk8Sorted()
    ensures SortedByUcs(Chunk8)
  {
    assert AdjacentSorted(Chunk8, 31);
    assert AdjacentSorted(Chunk8, 30);
    assert AdjacentSorted(Chunk8, 29);
    assert AdjacentSorted(Chunk8, 28);
    assert AdjacentSorted(Chunk8, 27);
    assert AdjacentSorted(Chunk8, 26);
    assert AdjacentSorted(Chunk8, 25);
    assert AdjacentSorted(Chunk8, 24);
    assert AdjacentSorted(Chunk8, 23);
    assert AdjacentSorted(Chunk8, 22);
    assert AdjacentSorted(Chunk8, 21);
    assert AdjacentSorted(Chunk8, 20);
    assert AdjacentSorted(Chunk8, 19);
    assert AdjacentSorted(Chunk8, 18);
    assert AdjacentSorted(Chunk8, 17);
    assert AdjacentSorted(Chunk8, 16);
    assert AdjacentSorted(Chunk8, 15);
    assert AdjacentSorted(Chunk8, 14);
    assert AdjacentSorted(Chunk8, 13);
    assert AdjacentSorted(Chunk8, 12);
    assert AdjacentSorted(Chunk8, 11);
    assert AdjacentSorted(Chunk8, 10);
    assert AdjacentSorted(Chunk8, 9);
    assert AdjacentSorted(Chunk8, 8);
    assert AdjacentSorted(Chunk8, 7);
    assert AdjacentSorted(Chunk8, 6);
    assert AdjacentSorted(Chunk8, 5);
    assert AdjacentSorted(Chunk8, 4);
    assert AdjacentSorted(Chunk8, 3);
    assert AdjacentSorted(Chunk8, 2);
    assert AdjacentSorted(Chunk8, 1);
    assert AdjacentSorted(Chunk8, 0);
    AdjacentSortedIsSorted(Chunk8, 0);
    assert Chunk8[0..] == Chunk8;
  }

  lemma Chunk9Sorted()
    ensures SortedByUcs(Chunk9)
  {
    assert AdjacentSorted(Chunk9, 31);
    assert AdjacentSorted(Chunk9, 30);
    assert AdjacentSorted(Chunk9, 29);
    assert AdjacentSorted(Chunk9, 28);
    assert AdjacentSorted(Chunk9, 27);
    assert AdjacentSorted(Chunk9, 26);
    assert AdjacentSorted(Chunk9, 25);
    assert AdjacentSorted(Chunk9, 24);
    assert AdjacentSorted(Chunk9, 23);
    assert AdjacentSorted(Chunk9, 22);
    assert AdjacentSorted(Chunk9, 21);
    assert AdjacentSorted(Chunk9, 20);
    assert AdjacentSorted(Chunk9, 19);
    assert AdjacentSorted(Chunk9, 18);
    assert AdjacentSorted(Chunk9, 17);
    assert AdjacentSorted(Chunk9, 16);
    assert AdjacentSorted(Chunk9, 15);
    assert AdjacentSorted(Chunk9, 14);
    assert AdjacentSorted(Chunk9, 13);
    assert AdjacentSorted(Chunk9, 12);
    assert AdjacentSorted(Chunk9, 11);
    assert AdjacentSorted(Chunk9, 10);
    assert AdjacentSorted(Chunk9, 9);
    assert AdjacentSorted(Chunk9, 8);
    assert AdjacentSorted(Chunk9, 7);
    assert AdjacentSorted(Chunk9, 6);
    assert AdjacentSorted(Chunk9, 5);
    assert AdjacentSorted(Chunk9, 4);
    assert AdjacentSorted(Chunk9, 3);
    assert AdjacentSorted(Chunk9, 2);
    assert AdjacentSorted(Chunk9, 1);
    assert AdjacentSorted(Chunk9, 0);
    AdjacentSortedIsSorted(Chunk9, 0);
    assert Chunk9[0..] == Chunk9;
  }

  lemma Chunk10Sorted()
    ensures SortedByUcs(Chunk10)
  {
    assert AdjacentSorted(Chunk10, 31);
    assert AdjacentSorted(Chunk10, 30);
    assert AdjacentSorted(Chunk10, 29);
    assert AdjacentSorted(Chunk10, 28);
    assert AdjacentSorted(Chunk10, 27);
    assert AdjacentSorted(Chunk10, 26);
    assert AdjacentSorted(Chunk10, 25);
    assert AdjacentSorted(Chunk10, 24);
    assert AdjacentSorted(Chunk10, 23);
    assert AdjacentSorted(Chunk10, 22);
    assert AdjacentSorted(Chunk10, 21);
    assert AdjacentSorted(Chunk10, 20);
    assert AdjacentSorted(Chunk10, 19);
    assert AdjacentSorted(Chunk10, 18);
    assert AdjacentSorted(Chunk10, 17);
    assert AdjacentSorted(Chunk10, 16);
    assert AdjacentSorted(Chunk10, 15);
    assert AdjacentSorted(Chunk10, 14);
    assert AdjacentSorted(Chunk10, 13);
    assert AdjacentSorted(Chunk10, 12);
    assert AdjacentSorted(Chunk10, 11);
    assert AdjacentSorted(Chunk10, 10);
    assert AdjacentSorted(Chunk10, 9);
    assert AdjacentSorted(Chunk10, 8);
    assert AdjacentSorted(Chunk10, 7);
    assert AdjacentSorted(Chunk10, 6);
    assert AdjacentSorted(Chunk10, 5);
    assert AdjacentSorted(Chunk10, 4);
    assert AdjacentSorted(Chunk10, 3);
    assert AdjacentSorted(Chunk10, 2);
    assert AdjacentSorted(Chunk10, 1);
    assert AdjacentSorted(Chunk10, 0);
    AdjacentSortedIsSorted(Chunk10, 0);
    assert Chunk10[0..] == Chunk10;
  }

  lemma Chunk11Sorted()
    ensures SortedByUcs(Chunk11)
  {
    assert AdjacentSorted(Chunk11, 31);
    assert AdjacentSorted(Chunk11, 30);
    assert AdjacentSorted(Chunk11, 29);
    assert AdjacentSorted(Chunk11, 28);
    assert AdjacentSorted(Chunk11, 27);
    assert AdjacentSorted(Chunk11, 26);
    assert AdjacentSorted(Chunk11, 25);
    assert AdjacentSorted(Chunk11, 24);
    assert AdjacentSorted(Chunk11, 23);
    assert AdjacentSorted(Chunk11, 22);
    assert AdjacentSorted(Chunk11, 21);
    assert AdjacentSorted(Chunk11, 20);
    assert AdjacentSorted(Chunk11, 19);
    assert AdjacentSorted(Chunk11, 18);
    assert AdjacentSorted(Chunk11, 17);
    assert AdjacentSorted(Chunk11, 16);
    assert AdjacentSorted(Chunk11, 15);
    assert AdjacentSorted(Chunk11, 14);
    assert AdjacentSorted(Chunk11, 13);
    assert AdjacentSorted(Chunk11, 12);
    assert AdjacentSorted(Chunk11, 11);
    assert AdjacentSorted(Chunk11, 10);
    assert AdjacentSorted(Chunk11, 9);
    assert AdjacentSorted(Chunk11, 8);
    assert AdjacentSorted(Chunk11, 7);
    assert AdjacentSorted(Chunk11, 6);
    assert AdjacentSorted(Chunk11, 5);
    assert AdjacentSorted(Chunk11, 4);
    assert AdjacentSorted(Chunk11, 3);
    assert AdjacentSorted(Chunk11, 2);
    assert AdjacentSorted(Chunk11, 1);
    assert AdjacentSorted(Chunk11, 0);
    AdjacentSortedIsSorted(Chunk11, 0);
    assert Chunk11[0..] == Chunk11;
  }

  lemma Chunk12Sorted()
    ensures SortedByUcs(Chunk12)
  {
    assert AdjacentSorted(Chunk12, 31);
    assert AdjacentSorted(Chunk12, 30);
    assert AdjacentSorted(Chunk12, 29);
    assert AdjacentSorted(Chunk12, 28);
    assert AdjacentSorted(Chunk12, 27);
    assert AdjacentSorted(Chunk12, 26);
    assert AdjacentSorted(Chunk12, 25);
    assert AdjacentSorted(Chunk12, 24);
    assert AdjacentSorted(Chunk12, 23);
    assert AdjacentSorted(Chunk12, 22);
    assert AdjacentSorted(Chunk12, 21);
    assert AdjacentSorted(Chunk12, 20);
    assert AdjacentSorted(Chunk12, 19);
    assert AdjacentSorted(Chunk12, 18);
    assert AdjacentSorted(Chunk12, 17);
    assert AdjacentSorted(Chunk12, 16);
    assert AdjacentSorted(Chunk12, 15);
    assert AdjacentSorted(Chunk12, 14);
    assert AdjacentSorted(Chunk12, 13);
    assert AdjacentSorted(Chunk12, 12);
    assert AdjacentSorted(Chunk12, 11);
    assert AdjacentSorted(Chunk12, 10);
    assert AdjacentSorted(Chunk12, 9);
    assert AdjacentSorted(Chunk12, 8);
    assert AdjacentSorted(Chunk12, 7);
    assert AdjacentSorted(Chunk12, 6);
    assert AdjacentSorted(Chunk12, 5);
    assert AdjacentSorted(Chunk12, 4);
    assert AdjacentSorted(Chunk12, 3);
    assert AdjacentSorted(Chunk12, 2);
    assert AdjacentSorted(Chunk12, 1);
    assert AdjacentSorted(Chunk12, 0);
    AdjacentSortedIsSorted(Chunk12, 0);
    assert Chunk12[0..] == Chunk12;
  }

  lemma Chunk13Sorted()
    ensures SortedByUcs(Chunk13)
  {
    assert AdjacentSorted(Chunk13, 31);
    assert AdjacentSorted(Chunk13, 30);
    assert AdjacentSorted(Chunk13, 29);
    assert AdjacentSorted(Chunk13, 28);
    assert AdjacentSorted(Chunk13, 27);
    assert AdjacentSorted(Chunk13, 26);
    assert AdjacentSorted(Chunk13, 25);
    assert AdjacentSorted(Chunk13, 24);
    assert AdjacentSorted(Chunk13, 23);
    assert AdjacentSorted(Chunk13, 22);
    assert AdjacentSorted(Chunk13, 21);
    assert AdjacentSorted(Chunk13, 20);
    assert AdjacentSorted(Chunk13, 19);
    assert AdjacentSorted(Chunk13, 18);
    assert AdjacentSorted(Chunk13, 17);
    assert AdjacentSorted(Chunk13, 16);
    assert AdjacentSorted(Chunk13, 15);
    assert AdjacentSorted(Chunk13, 14);
    assert AdjacentSorted(Chunk13, 13);
    assert AdjacentSorted(Chunk13, 12);
    assert AdjacentSorted(Chunk13, 11);
    assert AdjacentSorted(Chunk13, 10);
    assert AdjacentSorted(Chunk13, 9);
    assert AdjacentSorted(Chunk13, 8);
    assert AdjacentSorted(Chunk13, 7);
    assert AdjacentSorted(Chunk13, 6);
    assert AdjacentSorted(Chunk13, 5);
    assert AdjacentSorted(Chunk13, 4);
    assert AdjacentSorted(Chunk13, 3);
    assert AdjacentSorted(Chunk13, 2);
    assert AdjacentSorted(Chunk13, 1);
    assert AdjacentSorted(Chunk13, 0);
    AdjacentSortedIsSorted(Chunk13, 0);
    assert Chunk13[0..] == Chunk13;
  }

  lemma Chunk14Sorted()
    ensures SortedByUcs(Chunk14)
  {
    assert AdjacentSorted(Chunk14, 31);
    assert AdjacentSorted(Chunk14, 30);
    assert AdjacentSorted(Chunk14, 29);
    assert AdjacentSorted(Chunk14, 28);
    assert AdjacentSorted(Chunk14, 27);
    assert AdjacentSorted(Chunk14, 26);
    assert AdjacentSorted(Chunk14, 25);
    assert AdjacentSorted(Chunk14, 24);
    assert AdjacentSorted(Chunk14, 23);
    assert AdjacentSorted(Chunk14, 22);
    assert AdjacentSorted(Chunk14, 21);
    assert AdjacentSorted(Chunk14, 20);
    assert AdjacentSorted(Chunk14, 19);
    assert AdjacentSorted(Chunk14, 18);
    assert AdjacentSorted(Chunk14, 17);
    assert AdjacentSorted(Chunk14, 16);
    assert AdjacentSorted(Chunk14, 15);
    assert AdjacentSorted(Chunk14, 14);
    assert AdjacentSorted(Chunk14, 13);
    assert AdjacentSorted(Chunk14, 12);
    assert AdjacentSorted(Chunk14, 11);
    assert AdjacentSorted(Chunk14, 10);
    assert AdjacentSorted(Chunk14, 9);
    assert AdjacentSorted(Chunk14, 8);
    assert AdjacentSorted(Chunk14, 7);
    assert AdjacentSorted(Chunk14, 6);
    assert AdjacentSorted(Chunk14, 5);
    assert AdjacentSorted(Chunk14, 4);
    assert AdjacentSorted(Chunk14, 3);
    assert AdjacentSorted(Chunk14, 2);
    assert AdjacentSorted(Chunk14, 1);
    assert AdjacentSorted(Chunk14, 0);
    AdjacentSortedIsSorted(Chunk14, 0);
    assert Chunk14[0..] == Chunk14;
  }

  lemma Chunk15Sorted()
    ensures SortedByUcs(Chunk15)
  {
    assert AdjacentSorted(Chunk15, 31);
    assert AdjacentSorted(Chunk15, 30);
    assert AdjacentSorted(Chunk15, 29);
    assert AdjacentSorted(Chunk15, 28);
    assert AdjacentSorted(Chunk15, 27);
    assert AdjacentSorted(Chunk15, 26);
    assert AdjacentSorted(Chunk15, 25);
    assert AdjacentSorted(Chunk15, 24);
    assert AdjacentSorted(Chunk15, 23);
    assert AdjacentSorted(Chunk15, 22);
    assert AdjacentSorted(Chunk15, 21);
    assert AdjacentSorted(Chunk15, 20);
    assert AdjacentSorted(Chunk15, 19);
    assert AdjacentSorted(Chunk15, 18);
    assert AdjacentSorted(Chunk15, 17);
    assert AdjacentSorted(Chunk15, 16);
    assert AdjacentSorted(Chunk15, 15);
    assert AdjacentSorted(Chunk15, 14);
    assert AdjacentSorted(Chunk15, 13);
    assert AdjacentSorted(Chunk15, 12);
    assert AdjacentSorted(Chunk15, 11);
    assert AdjacentSorted(Chunk15, 10);
    assert AdjacentSorted(Chunk15, 9);
    assert AdjacentSorted(Chunk15, 8);
    assert AdjacentSorted(Chunk15, 7);
    assert AdjacentSorted(Chunk15, 6);
    assert AdjacentSorted(Chunk15, 5);
    assert AdjacentSorted(Chunk15, 4);
    assert AdjacentSorted(Chunk15, 3);
    assert AdjacentSorted(Chunk15, 2);
    assert AdjacentSorted(Chunk15, 1);
    assert AdjacentSorted(Chunk15, 0);
    AdjacentSortedIsSorted(Chunk15, 0);
    assert Chunk15[0..] == Chunk15;
  }

  lemma Chunk16Sorted()
    ensures SortedByUcs(Chunk16)
  {
    assert AdjacentSorted(Chunk16, 31);
    assert AdjacentSorted(Chunk16, 30);
    assert AdjacentSorted(Chunk16, 29);
    assert AdjacentSorted(Chunk16, 28);
    assert AdjacentSorted(Chunk16, 27);
    assert AdjacentSorted(Chunk16, 26);
    assert AdjacentSorted(Chunk16, 25);
    assert AdjacentSorted(Chunk16, 24);
    assert AdjacentSorted(Chunk16, 23);
    assert AdjacentSorted(Chunk16, 22);
    assert AdjacentSorted(Chunk16, 21);
    assert AdjacentSorted(Chunk16, 20);
    assert AdjacentSorted(Chunk16, 19);
    assert AdjacentSorted(Chunk16, 18);
    assert AdjacentSorted(Chunk16, 17);
    assert AdjacentSorted(Chunk16, 16);
    assert AdjacentSorted(Chunk16, 15);
    assert AdjacentSorted(Chunk16, 14);
    assert AdjacentSorted(Chunk16, 13);
    assert AdjacentSorted(Chunk16, 12);
    assert AdjacentSorted(Chunk16, 11);
    assert AdjacentSorted(Chunk16, 10);
    assert AdjacentSorted(Chunk16, 9);
    assert AdjacentSorted(Chunk16, 8);
    assert AdjacentSorted(Chunk16, 7);
    assert AdjacentSorted(Chunk16, 6);
    assert AdjacentSorted(Chunk16, 5);
    assert AdjacentSorted(Chunk16, 4);
    assert AdjacentSorted(Chunk16, 3);
    assert AdjacentSorted(Chunk16, 2);
    assert AdjacentSorted(Chunk16, 1);
    assert AdjacentSorted(Chunk16, 0);
    AdjacentSortedIsSorted(Chunk16, 0);
    assert Chunk16[0..] == Chunk16;
  }

  lemma Chunk17Sorted()
    ensures SortedByUcs(Chunk17)
  {
    assert AdjacentSorted(Chunk17, 31);
    assert AdjacentSorted(Chunk17, 30);
    assert AdjacentSorted(Chunk17, 29);
    assert AdjacentSorted(Chunk17, 28);
    assert AdjacentSorted(Chunk17, 27);
    assert AdjacentSorted(Chunk17, 26);
    assert AdjacentSorted(Chunk17, 25);
    assert AdjacentSorted(Chunk17, 24);
    assert AdjacentSorted(Chunk17, 23);
    assert AdjacentSorted(Chunk17, 22);
    assert AdjacentSorted(Chunk17, 21);
    assert AdjacentSorted(Chunk17, 20);
    assert AdjacentSorted(Chunk17, 19);
    assert AdjacentSorted(Chunk17, 18);
    assert AdjacentSorted(Chunk17, 17);
    assert AdjacentSorted(Chunk17, 16);
    assert AdjacentSorted(Chunk17, 15);
    assert AdjacentSorted(Chunk17, 14);
    assert AdjacentSorted(Chunk17, 13);
    assert AdjacentSorted(Chunk17, 12);
    assert AdjacentSorted(Chunk17, 11);
    assert AdjacentSorted(Chunk17, 10);
    assert AdjacentSorted(Chunk17, 9);
    assert AdjacentSorted(Chunk17, 8);
    assert AdjacentSorted(Chunk17, 7);
    assert AdjacentSorted(Chunk17, 6);
    assert AdjacentSorted(Chunk17, 5);
    assert AdjacentSorted(Chunk17, 4);
    assert AdjacentSorted(Chunk17, 3);
    assert AdjacentSorted(Chunk17, 2);
    assert AdjacentSorted(Chunk17, 1);
    assert AdjacentSorted(Chunk17, 0);
    AdjacentSortedIsSorted(Chunk17, 0);
    assert Chunk17[0..] == Chunk17;
  }

  lemma Chunk18Sorted()
    ensures SortedByUcs(Chunk18)
  {
    assert AdjacentSorted(Chunk18, 31);
    assert AdjacentSorted(Chunk18, 30);
    assert AdjacentSorted(Chunk18, 29);
    assert AdjacentSorted(Chunk18, 28);
    assert AdjacentSorted(Chunk18, 27);
    assert AdjacentSorted(Chunk18, 26);
    assert AdjacentSorted(Chunk18, 25);
    assert AdjacentSorted(Chunk18, 24);
    assert AdjacentSorted(Chunk18, 23);
    assert AdjacentSorted(Chunk18, 22);
    assert AdjacentSorted(Chunk18, 21);
    assert AdjacentSorted(Chunk18, 20);
    assert AdjacentSorted(Chunk18, 19);
    assert AdjacentSorted(Chunk18, 18);
    assert AdjacentSorted(Chunk18, 17);
    assert AdjacentSorted(Chunk18, 16);
    assert AdjacentSorted(Chunk18, 15);
    assert AdjacentSorted(Chunk18, 14);
    assert AdjacentSorted(Chunk18, 13);
    assert AdjacentSorted(Chunk18, 12);
    assert AdjacentSorted(Chunk18, 11);
    assert AdjacentSorted(Chunk18, 10);
    assert AdjacentSorted(Chunk18, 9);
    assert AdjacentSorted(Chunk18, 8);
    assert AdjacentSorted(Chunk18, 7);
    assert AdjacentSorted(Chunk18, 6);
    assert AdjacentSorted(Chunk18, 5);
    assert AdjacentSorted(Chunk18, 4);
    assert AdjacentSorted(Chunk18, 3);
    assert AdjacentSorted(Chunk18, 2);
    assert AdjacentSorted(Chunk18, 1);
    assert AdjacentSorted(Chunk18, 0);
    AdjacentSortedIsSorted(Chunk18, 0);
    assert Chunk18[0..] == Chunk18;
  }

  lemma Chunk19Sorted()
    ensures SortedByUcs(Chunk19)
  {
    assert AdjacentSorted(Chunk19, 31);
    assert AdjacentSorted(Chunk19, 30);
    assert AdjacentSorted(Chunk19, 29);
    assert AdjacentSorted(Chunk19, 28);
    assert AdjacentSorted(Chunk19, 27);
    assert AdjacentSorted(Chunk19, 26);
    assert AdjacentSorted(Chunk19, 25);
    assert AdjacentSorted(Chunk19, 24);
    assert AdjacentSorted(Chunk19, 23);
    assert AdjacentSorted(Chunk19, 22);
    assert AdjacentSorted(Chunk19, 21);
    assert AdjacentSorted(Chunk19, 20);
    assert AdjacentSorted(Chunk19, 19);
    assert AdjacentSorted(Chunk19, 18);
    assert AdjacentSorted(Chunk19, 17);
    assert AdjacentSorted(Chunk19, 16);
    assert AdjacentSorted(Chunk19, 15);
    assert AdjacentSorted(Chunk19, 14);
    assert AdjacentSorted(Chunk19, 13);
    assert AdjacentSorted(Chunk19, 12);
    assert AdjacentSorted(Chunk19, 11);
    assert AdjacentSorted(Chunk19, 10);
    assert AdjacentSorted(Chunk19, 9);
    assert AdjacentSorted(Chunk19, 8);
    assert AdjacentSorted(Chunk19, 7);
    assert AdjacentSorted(Chunk19, 6);
    assert AdjacentSorted(Chunk19, 5);
    assert AdjacentSorted(Chunk19, 4);
    assert AdjacentSorted(Chunk19, 3);
    assert AdjacentSorted(Chunk19, 2);
    assert AdjacentSorted(Chunk19, 1);
    assert AdjacentSorted(Chunk19, 0);
    AdjacentSortedIsSorted(Chunk19, 0);
    assert Chunk19[0..] == Chunk19;
  }

  lemma Chunk20Sorted()
    ensures SortedByUcs(Chunk20)
  {
    assert AdjacentSorted(Chunk20, 31);
    assert AdjacentSorted(Chunk20, 30);
    assert AdjacentSorted(Chunk20, 29);
    assert AdjacentSorted(Chunk20, 28);
    assert AdjacentSorted(Chunk20, 27);
    assert AdjacentSorted(Chunk20, 26);
    assert AdjacentSorted(Chunk20, 25);
    assert AdjacentSorted(Chunk20, 24);
    assert AdjacentSorted(Chunk20, 23);
    assert AdjacentSorted(Chunk20, 22);
    assert AdjacentSorted(Chunk20, 21);
    assert AdjacentSorted(Chunk20, 20);
    assert AdjacentSorted(Chunk20, 19);
    assert AdjacentSorted(Chunk20, 18);
    assert AdjacentSorted(Chunk20, 17);
    assert AdjacentSorted(Chunk20, 16);
    assert AdjacentSorted(Chunk20, 15);
    assert AdjacentSorted(Chunk20, 14);
    assert AdjacentSorted(Chunk20, 13);
    assert AdjacentSorted(Chunk20, 12);
    assert AdjacentSorted(Chunk20, 11);
    assert AdjacentSorted(Chunk20, 10);
    assert AdjacentSorted(Chunk20, 9);
    assert AdjacentSorted(Chunk20, 8);
    assert AdjacentSorted(Chunk20, 7);
    assert AdjacentSorted(Chunk20, 6);
    assert AdjacentSorted(Chunk20, 5);
    assert AdjacentSorted(Chunk20, 4);
    assert AdjacentSorted(Chunk20, 3);
    assert AdjacentSorted(Chunk20, 2);
    assert AdjacentSorted(Chunk20, 1);
    assert AdjacentSorted(Chunk20, 0);
    AdjacentSortedIsSorted(Chunk20, 0);
    assert Chunk20[0..] == Chunk20;
  }

  lemma Chunk21Sorted()
    ensures SortedByUcs(Chunk21)
  {
    assert AdjacentSorted(Chunk21, 31);
    assert AdjacentSorted(Chunk21, 30);
    assert AdjacentSorted(Chunk21, 29);
    assert AdjacentSorted(Chunk21, 28);
    assert AdjacentSorted(Chunk21, 27);
    assert AdjacentSorted(Chunk21, 26);
    assert AdjacentSorted(Chunk21, 25);
    assert AdjacentSorted(Chunk21, 24);
    assert AdjacentSorted(Chunk21, 23);
    assert AdjacentSorted(Chunk21, 22);
    assert AdjacentSorted(Chunk21, 21);
    assert AdjacentSorted(Chunk21, 20);
    assert AdjacentSorted(Chunk21, 19);
    assert AdjacentSorted(Chunk21, 18);
    assert AdjacentSorted(Chunk21, 17);
    assert AdjacentSorted(Chunk21, 16);
    assert AdjacentSorted(Chunk21, 15);
    assert AdjacentSorted(Chunk21, 14);
    assert AdjacentSorted(Chunk21, 13);
    assert AdjacentSorted(Chunk21, 12);
    assert AdjacentSorted(Chunk21, 11);
    assert AdjacentSorted(Chunk21, 10);
    assert AdjacentSorted(Chunk21, 9);
    assert AdjacentSorted(Chunk21, 8);
    assert AdjacentSorted(Chunk21, 7);
    assert AdjacentSorted(Chunk21, 6);
    assert AdjacentSorted(Chunk21, 5);
    assert AdjacentSorted(Chunk21, 4);
    assert AdjacentSorted(Chunk21, 3);
    assert AdjacentSorted(Chunk21, 2);
    assert AdjacentSorted(Chunk21, 1);
    assert AdjacentSorted(Chunk21, 0);
    AdjacentSortedIsSorted(Chunk21, 0);
    assert Chunk21[0..] == Chunk21;
  }

  lemma Chunk22Sorted()
    ensures SortedByUcs(Chunk22)
  {
    assert AdjacentSorted(Chunk22, 31);
    assert AdjacentSorted(Chunk22, 30);
    assert AdjacentSorted(Chunk22, 29);
    assert AdjacentSorted(Chunk22, 28);
    assert AdjacentSorted(Chunk22, 27);
    assert AdjacentSorted(Chunk22, 26);
    assert AdjacentSorted(Chunk22, 25);
    assert AdjacentSorted(Chunk22, 24);
    assert AdjacentSorted(Chunk22, 23);
    assert AdjacentSorted(Chunk22, 22);
    assert AdjacentSorted(Chunk22, 21);
    assert AdjacentSorted(Chunk22, 20);
    assert AdjacentSorted(Chunk22, 19);
    assert AdjacentSorted(Chunk22, 18);
    assert AdjacentSorted(Chunk22, 17);
    assert AdjacentSorted(Chunk22, 16);
    assert AdjacentSorted(Chunk22, 15);
    assert AdjacentSorted(Chunk22, 14);
    assert AdjacentSorted(Chunk22, 13);
    assert AdjacentSorted(Chunk22, 12);
    assert AdjacentSorted(Chunk22, 11);
    assert AdjacentSorted(Chunk22, 10);
    assert AdjacentSorted(Chunk22, 9);
    assert AdjacentSorted(Chunk22, 8);
    assert AdjacentSorted(Chunk22, 7);
    assert AdjacentSorted(Chunk22, 6);
    assert AdjacentSorted(Chunk22, 5);
    assert AdjacentSorted(Chunk22, 4);
    assert AdjacentSorted(Chunk22, 3);
    assert AdjacentSorted(Chunk22, 2);
    assert AdjacentSorted(Chunk22, 1);
    assert AdjacentSorted(Chunk22, 0);
    AdjacentSortedIsSorted(Chunk22, 0);
    assert Chunk22[0..] == Chunk22;
  }

  lemma Chunk23Sorted()
    ensures SortedByUcs(Chunk23)
  {
    assert AdjacentSorted(Chunk23, 31);
    assert AdjacentSorted(Chunk23, 30);
    assert AdjacentSorted(Chunk23, 29);
    assert AdjacentSorted(Chunk23, 28);
    assert AdjacentSorted(Chunk23, 27);
    assert AdjacentSorted(Chunk23, 26);
    assert AdjacentSorted(Chunk23, 25);
    assert AdjacentSorted(Chunk23, 24);
    assert AdjacentSorted(Chunk23, 23);
    assert AdjacentSorted(Chunk23, 22);
    assert AdjacentSorted(Chunk23, 21);
    assert AdjacentSorted(Chunk23, 20);
    assert AdjacentSorted(Chunk23, 19);
    assert AdjacentSorted(Chunk23, 18);
    assert AdjacentSorted(Chunk23, 17);
    assert AdjacentSorted(Chunk23, 16);
    assert AdjacentSorted(Chunk23, 15);
    assert AdjacentSorted(Chunk23, 14);
    assert AdjacentSorted(Chunk23, 13);
    assert AdjacentSorted(Chunk23, 12);
    assert AdjacentSorted(Chunk23, 11);
    assert AdjacentSorted(Chunk23, 10);
    assert AdjacentSorted(Chunk23, 9);
    assert AdjacentSorted(Chunk23, 8);
    assert AdjacentSorted(Chunk23, 7);
    assert AdjacentSorted(Chunk23, 6);
    assert AdjacentSorted(Chunk23, 5);
    assert AdjacentSorted(Chunk23, 4);
    assert AdjacentSorted(Chunk23, 3);
    assert AdjacentSorted(Chunk23, 2);
    assert AdjacentSorted(Chunk23, 1);
    assert AdjacentSorted(Chunk23, 0);
    AdjacentSortedIsSorted(Chunk23, 0);
    assert Chunk23[0..] == Chunk23;
  }

  lemma Chunk24Sorted()
    ensures SortedByUcs(Chunk24)
  {
    assert AdjacentSorted(Chunk24, 4);
    assert AdjacentSorted(Chunk24, 3);
    assert AdjacentSorted(Chunk24, 2);
    assert AdjacentSorted(Chunk24, 1);
    assert AdjacentSorted(Chunk24, 0);
    AdjacentSortedIsSorted(Chunk24, 0);
    assert Chunk24[0..] == Chunk24;
  }

  /** keysymtab is ordered non-decreasingly by ucs, so bsearch over it is
      well defined. */
  lemma TableSorted()
    ensures |Table| == 773
    ensures SortedByUcs(Table)
  {
    Chunk0Sorted();
    Chunk1Sorted();
    SortedConcat(Chunk0, Chunk1);
    Chunk2Sorted();
    SortedConcat(Chunk0 + Chunk1, Chunk2);
    Chunk3Sorted();
    SortedConcat(Chunk0 + Chunk1 + Chunk2, Chunk3);
    Chunk4Sorted();
    SortedConcat(Chunk0 + Chunk1 + Chunk2 + Chunk3, Chunk4);
    Chunk5Sorted();
    SortedConcat(Chunk0 + Chunk1 + Chunk2 + Chunk3 + Chunk4, Chunk5);
    Chunk6Sorted();
    SortedConcat(Chunk0 + Chunk1 + Chunk2 + Chunk3 + Chunk4 + Chunk5, Chunk6);
    Chunk7Sorted();
    SortedConcat(Chunk0 + Chunk1 + Chunk2 + Chunk3 + Chunk4 + Chunk5 + Chunk6, Chunk7);
    Chunk8Sorted();
    SortedConcat(Chunk0 + Chunk1 + Chunk2 + Chunk3 + Chunk4 + Chunk5 + Chunk6 + Chunk7, Chunk8);
    Chunk9Sorted();
    SortedConcat(Chunk0 + Chunk1 + Chunk2 + Chunk3 + Chunk4 + Chunk5 + Chunk6 + Chunk7 + Chunk8, Chunk9);
    Chunk10Sorted();
    SortedConcat(Chunk0 + Chunk1 + Chunk2 + Chunk3 + Chunk4 + Chunk5 + Chunk6 + Chunk7 + Chunk8 + Chunk9, Chunk10);
    Chunk11Sorted();
    SortedConcat(Chunk0 + Chunk1 + Chunk2 + Chunk3 + Chunk4 + Chunk5 + Chunk6 + Chunk7 + Chunk8 + Chunk9 + Chunk10, Chunk11);
    Chunk12Sorted();
    SortedConcat(Chunk0 + Chunk1 + Chunk2 + Chunk3 + Chunk4 + Chunk5 + Chunk6 + Chunk7 + Chunk8 + Chunk9 + Chunk10 + Chunk11, Chunk12);
    Chunk13Sorted();
    SortedConcat(Chunk0 + Chunk1 + Chunk2 + Chunk3 + Chunk4 + Chunk5 + Chunk6 + Chunk7 + Chunk8 + Chunk9 + Chunk10 + Chunk11 + Chunk12, Chunk13);
    Chunk14Sorted();
    SortedConcat(Chunk0 + Chunk1 + Chunk2 + Chunk3 + Chunk4 + Chunk5 + Chunk6 + Chunk7 + Chunk8 + Chunk9 + Chunk10 + Chunk11 + Chunk12 + Chunk13, Chunk14);
    Chunk15Sorted();
    SortedConcat(Chunk0 + Chunk1 + Chunk2 + Chunk3 + Chunk4 + Chunk5 + Chunk6 + Chunk7 + Chunk8 + Chunk9 + Chunk10 + Chunk11 + Chunk12 + Chunk13 + Chunk14, Chunk15);
    Chunk16Sorted();
    SortedConcat(Chunk0 + Chunk1 + Chunk2 + Chunk3 + Chunk4 + Chunk5 + Chunk6 + Chunk7 + Chunk8 + Chunk9 + Chunk10 + Chunk11 + Chunk12 + Chunk13 + Chunk14 + Chunk15, Chunk16);
    Chunk17Sorted();
    SortedConcat(Chunk0 + Chunk1 + Chunk2 + Chunk3 + Chunk4 + Chunk5 + Chunk6 + Chunk7 + Chunk8 + Chunk9 + Chunk10 + Chunk11 + Chunk12 + Chunk13 + Chunk14 + Chunk15 + Chunk16, Chunk17);
    Chunk18Sorted();
    SortedConcat(Chunk0 + Chunk1 + Chunk2 + Chunk3 + Chunk4 + Chunk5 + Chunk6 + Chunk7 + Chunk8 + Chunk9 + Chunk10 + Chunk11 + Chunk12 + Chunk13 + Chunk14 + Chunk15 + Chunk16 + Chunk17, Chunk18);
    Chunk19Sorted();
    SortedConcat(Chunk0 + Chunk1 + Chunk2 + Chunk3 + Chunk4 + Chunk5 + Chunk6 + Chunk7 + Chunk8 + Chunk9 + Chunk10 + Chunk11 + Chunk12 + Chunk13 + Chunk14 + Chunk15 + Chunk16 + Chunk17 + Chunk18, Chunk19);
    Chunk20Sorted();
    SortedConcat(Chunk0 + Chunk1 + Chunk2 + Chunk3 + Chunk4 + Chunk5 + Chunk6 + Chunk7 + Chunk8 + Chunk9 + Chunk10 + Chunk11 + Chunk12 + Chunk13 + Chunk14 + Chunk15 + Chunk16 + Chunk17 + Chunk18 + Chunk19, Chunk20);
    Chunk21Sorted();
    SortedConcat(Chunk0 + Chunk1 + Chunk2 + Chunk3 + Chunk4 + Chunk5 + Chunk6 + Chunk7 + Chunk8 + Chunk9 + Chunk10 + Chunk11 + Chunk12 + Chunk13 + Chunk14 + Chunk15 + Chunk16 + Chunk17 + Chunk18 + Chunk19 + Chunk20, Chunk21);
    Chunk22Sorted();
    SortedConcat(Chunk0 + Chunk1 + Chunk2 + Chunk3 + Chunk4 + Chunk5 + Chunk6 + Chunk7 + Chunk8 + Chunk9 + Chunk10 + Chunk11 + Chunk12 + Chunk13 + Chunk14 + Chunk15 + Chunk16 + Chunk17 + Chunk18 + Chunk19 + Chunk20 + Chunk21, Chunk22);
    Chunk23Sorted();
    SortedConcat(Chunk0 + Chunk1 + Chunk2 + Chunk3 + Chunk4 + Chunk5 + Chunk6 + Chunk7 + Chunk8 + Chunk9 + Chunk10 + Chunk11 + Chunk12 + Chunk13 + Chunk14 + Chunk15 + Chunk16 + Chunk17 + Chunk18 + Chunk19 + Chunk20 + Chunk21 + Chunk22, Chunk23);
    Chunk24Sorted();
    SortedConcat(Chunk0 + Chunk1 + Chunk2 + Chunk3 + Chunk4 + Chunk5 + Chunk6 + Chunk7 + Chunk8 + Chunk9 + Chunk10 + Chunk11 + Chunk12 + Chunk13 + Chunk14 + Chunk15 + Chunk16 + Chunk17 + Chunk18 + Chunk19 + Chunk20 + Chunk21 + Chunk22 + Chunk23, Chunk24);
  }
}

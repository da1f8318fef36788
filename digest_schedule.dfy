/**
 * The digest schedule fixed by a changes-trie `Configuration`.
 *
 * Every block carries a changes trie mapping each changed storage key to the
 * extrinsics that changed it. With digest interval N > 1 and L >= 1 levels,
 * every block that is a multiple of N^l (1 <= l <= L) additionally carries a
 * level-l digest. A level-l digest at block B summarises the N^l - 1 blocks
 * before B, so a level-1 digest summarises the previous N - 1 blocks.
 * Genesis (block 0) is never a digest block and is never summarised.
 *
 * The module documentation of the changes-trie code places level-l digests
 * every N^digest_level blocks, but says each covers "the last
 * N*digest_level-1 blocks". The span modelled here (DigestSpan) is the last
 * N^l - 1 blocks instead, because only that span tiles the schedule
 * (CoveringDigestBlock, SpansDoNotOverlap). The product form is kept as
 * DocSpanAsWritten, with a lemma showing that it leaves blocks unsummarised.
 */
module DigestSchedule {

  /** Unsigned integer widths of the configuration fields. */
  type U64 = x: int | 0 <= x < 0x1_0000_0000_0000_0000
  type U8 = x: int | 0 <= x < 0x100

  /** Changes trie configuration: the level-1 digest interval and the number of digest levels. */
  datatype Configuration = Configuration(digestInterval: U64, digestLevels: U8)

  /** n raised to the power l. */
  function Pow(n: nat, l: nat): (r: nat)
    ensures n > 0 ==> r > 0
  {
    if l == 0 then 1 else n * Pow(n, l - 1)
  }

  /** The interval at which level-`level` digests are created: digestInterval^level. */
  function LevelInterval(cfg: Configuration, level: nat): nat
  {
    Pow(cfg.digestInterval, level)
  }

  /** True when `cfg` creates level-`level` digests at all. */
  predicate LevelEnabled(cfg: Configuration, level: nat)
  {
    cfg.digestInterval > 1 && 1 <= level <= cfg.digestLevels
  }

  /**
   * True when `block` carries a level-`level` digest under `cfg`: a positive
   * multiple of N^level, for an enabled level. Equivalently, the first
   * level-`level` digest is at block N^level and the next ones follow every
   * N^level blocks.
   */
  predicate IsDigestBlock(cfg: Configuration, block: nat, level: nat)
    ensures IsDigestBlock(cfg, block, level) <==>
              && LevelEnabled(cfg, level)
              && block >= LevelInterval(cfg, level)
              && (block - LevelInterval(cfg, level)) % LevelInterval(cfg, level) == 0
  {
    LevelEnabled(cfg, level) &&
      (DigestBoundaryShift(block, LevelInterval(cfg, level));
       block > 0 && block % LevelInterval(cfg, level) == 0)
  }

  /** The highest level in 1..k at which `block` carries a digest, or 0 when there is none. */
  function MaxDigestLevelUpTo(cfg: Configuration, block: nat, k: nat): (r: nat)
    requires k <= cfg.digestLevels
    ensures r <= k
    ensures r > 0 ==> IsDigestBlock(cfg, block, r)
    ensures forall l :: r < l <= k ==> !IsDigestBlock(cfg, block, l)
    decreases k
  {
    if k == 0 then 0
    else if IsDigestBlock(cfg, block, k) then k
    else MaxDigestLevelUpTo(cfg, block, k - 1)
  }

  /** The highest digest level `block` carries under `cfg`, or 0 when it carries no digest. */
  function MaxDigestLevel(cfg: Configuration, block: nat): (r: nat)
    ensures r <= cfg.digestLevels
    ensures cfg.digestInterval <= 1 || block == 0 ==> r == 0
    ensures r > 0 ==> IsDigestBlock(cfg, block, r)
    ensures forall l :: r < l ==> !IsDigestBlock(cfg, block, l)
  {
    MaxDigestLevelUpTo(cfg, block, cfg.digestLevels)
  }

  /** The consecutive integers lo, lo + 1, ..., hi - 1. */
  function Range(lo: nat, hi: nat): (r: seq<nat>)
    requires lo <= hi
    ensures |r| == hi - lo
    ensures forall i :: 0 <= i < |r| ==> r[i] == lo + i
    decreases hi - lo
  {
    if lo == hi then [] else [lo] + Range(lo + 1, hi)
  }

  /**
   * The blocks a level-`level` digest at `block` summarises, in ascending
   * order: the N^level - 1 blocks immediately before it, that is
   * block - N^level + 1 .. block - 1. For level 1 these are the previous
   * N - 1 blocks.
   */
  function DigestSpan(cfg: Configuration, block: nat, level: nat): (span: seq<nat>)
    requires IsDigestBlock(cfg, block, level)
    ensures |span| == LevelInterval(cfg, level) - 1
    ensures forall i :: 0 <= i < |span| ==> 0 < span[i] < block
    ensures forall i :: 0 < i < |span| ==> span[i] == span[i - 1] + 1
    ensures |span| > 0 ==> span[|span| - 1] == block - 1
  {
    PositiveMultipleAtLeast(block, LevelInterval(cfg, level));
    Range(block - LevelInterval(cfg, level) + 1, block)
  }

  /**
   * The span as the module documentation words it for levels above 1: the
   * last N*level - 1 blocks before `block`.
   */
  function DocSpanAsWritten(cfg: Configuration, block: nat, level: nat): (span: seq<int>)
    ensures |span| == if cfg.digestInterval * level >= 1 then cfg.digestInterval * level - 1 else 0
    ensures forall i :: 0 < i < |span| ==> span[i] == span[i - 1] + 1
    ensures |span| > 0 ==> span[|span| - 1] == block - 1
  {
    var width := cfg.digestInterval * level;
    if width >= 1 then seq(width - 1, i => block - width + 1 + i) else []
  }

  // ---------------------------------------------------------------------------
  // Arithmetic facts about multiples.

  /** The sign of a product with a positive factor. */
  lemma MulSign(k: int, m: int)
    requires m > 0
    ensures k >= 1 ==> k * m >= m
    ensures k <= -1 ==> k * m <= -m
    ensures k <= 0 ==> k * m <= 0
  {
  }

  /** A multiple of m leaves remainder 0 and quotient q. */
  lemma ModOfMultiple(a: int, m: int, q: int)
    requires m > 0 && a == q * m
    ensures a % m == 0 && a / m == q
  {
    var d, r := a / m, a % m;
    assert a == d * m + r && 0 <= r < m;
    assert (q - d) * m == r;
    MulSign(q - d, m);
  }

  /** A positive multiple of m is at least m. */
  lemma PositiveMultipleAtLeast(a: int, m: int)
    requires a > 0 && m > 0 && a % m == 0
    ensures a >= m
  {
    var q := a / m;
    assert a == q * m;
    MulSign(q, m);
  }

  /** Two distinct multiples of m are at least m apart. */
  lemma MultiplesApart(x: int, y: int, m: int)
    requires m > 0 && x % m == 0 && y % m == 0 && x < y
    ensures x + m <= y
  {
    var a, c := x / m, y / m;
    assert x == a * m && y == c * m;
    assert (c - a) * m == y - x;
    MulSign(c - a, m);
  }

  /** A positive multiple of m is a multiple of m that is m or more, and conversely. */
  lemma DigestBoundaryShift(a: int, m: int)
    requires m > 0
    ensures (a > 0 && a % m == 0) <==> (a >= m && (a - m) % m == 0)
  {
    if a > 0 && a % m == 0 {
      PositiveMultipleAtLeast(a, m);
      var q := a / m;
      assert a - m == (q - 1) * m;
      ModOfMultiple(a - m, m, q - 1);
    }
    if a >= m && (a - m) % m == 0 {
      var q := (a - m) / m;
      assert a == (q + 1) * m;
      ModOfMultiple(a, m, q + 1);
    }
  }

  /** A multiple of n^l is a multiple of n^(l-1). */
  lemma MultipleOfLowerPower(b: int, n: nat, l: nat)
    requires n > 0 && l >= 1 && b % Pow(n, l) == 0
    ensures b % Pow(n, l - 1) == 0
  {
    var q := b / Pow(n, l);
    assert b == q * Pow(n, l);
    assert b == (q * n) * Pow(n, l - 1);
    ModOfMultiple(b, Pow(n, l - 1), q * n);
  }

  // ---------------------------------------------------------------------------
  // Properties of the schedule.

  /** With an interval of at most 1, or with no levels, no block carries a digest of any level. */
  lemma NoDigestsWhenDisabled(cfg: Configuration)
    requires cfg.digestInterval <= 1 || cfg.digestLevels == 0
    ensures forall block: nat, level: nat :: !IsDigestBlock(cfg, block, level)
    ensures forall block: nat :: MaxDigestLevel(cfg, block) == 0
  {
  }

  /** With exactly one level, every digest is a level-1 digest, and level-1 digests fall on multiples of N. */
  lemma OnlyLevelOneWhenOneLevel(cfg: Configuration, block: nat, level: nat)
    requires cfg.digestLevels == 1
    ensures IsDigestBlock(cfg, block, level) <==>
              level == 1 && cfg.digestInterval > 1 && block > 0 && block % cfg.digestInterval == 0
  {
    assert Pow(cfg.digestInterval, 1) == cfg.digestInterval;
  }

  /** Digest levels are nested: a level-l digest block is a digest block at every lower level from 1. */
  lemma {:induction false} DigestLevelsNested(cfg: Configuration, block: nat, level: nat, lower: nat)
    requires IsDigestBlock(cfg, block, level)
    requires 1 <= lower <= level
    ensures IsDigestBlock(cfg, block, lower)
    decreases level - lower
  {
    if lower < level {
      DigestLevelsNested(cfg, block, level, lower + 1);
      MultipleOfLowerPower(block, cfg.digestInterval, lower + 1);
    }
  }

  /**
   * Digest eligibility: a block carries a level-l digest exactly when l is
   * between 1 and its maximal digest level.
   */
  lemma DigestEligibility(cfg: Configuration, block: nat, level: nat)
    ensures IsDigestBlock(cfg, block, level) <==> 1 <= level <= MaxDigestLevel(cfg, block)
  {
    var top := MaxDigestLevel(cfg, block);
    if 1 <= level <= top {
      DigestLevelsNested(cfg, block, top, level);
    }
  }

  /** Membership in a digest span: exactly the blocks strictly between block - N^level and block. */
  lemma DigestSpanMembers(cfg: Configuration, block: nat, level: nat, b: int)
    requires IsDigestBlock(cfg, block, level)
    ensures b in DigestSpan(cfg, block, level) <==> block - LevelInterval(cfg, level) < b < block
  {
    var span := DigestSpan(cfg, block, level);
    var lo := block - LevelInterval(cfg, level) + 1;
    if lo <= b < block {
      assert span[b - lo] == b;
    }
  }

  /** Genesis is never summarised by a digest of any level. */
  lemma GenesisNeverSummarised(cfg: Configuration, block: nat, level: nat)
    requires IsDigestBlock(cfg, block, level)
    ensures 0 !in DigestSpan(cfg, block, level)
  {
    PositiveMultipleAtLeast(block, LevelInterval(cfg, level));
    DigestSpanMembers(cfg, block, level, 0);
  }

  /** A level-1 digest summarises the N - 1 blocks before it, genesis excluded. */
  lemma Level1SpanIsPreviousBlocks(cfg: Configuration, block: nat)
    requires IsDigestBlock(cfg, block, 1)
    ensures |DigestSpan(cfg, block, 1)| == cfg.digestInterval - 1
    ensures forall b :: b in DigestSpan(cfg, block, 1) <==> block - cfg.digestInterval < b < block
    ensures 0 !in DigestSpan(cfg, block, 1)
  {
    assert Pow(cfg.digestInterval, 0) == 1;
    assert LevelInterval(cfg, 1) == cfg.digestInterval;
    forall b | true
      ensures b in DigestSpan(cfg, block, 1) <==> block - cfg.digestInterval < b < block
    {
      DigestSpanMembers(cfg, block, 1, b);
    }
    GenesisNeverSummarised(cfg, block, 1);
  }

  /**
   * A span reaches back exactly to the previous boundary of its level: the
   * block just before the span is genesis or a digest block of the same
   * level, and no block inside the span is one.
   */
  lemma SpanReachesPreviousBoundary(cfg: Configuration, block: nat, level: nat)
    requires IsDigestBlock(cfg, block, level)
    ensures block - LevelInterval(cfg, level) >= 0
    ensures block - LevelInterval(cfg, level) == 0 || IsDigestBlock(cfg, block - LevelInterval(cfg, level), level)
    ensures forall b :: b in DigestSpan(cfg, block, level) ==> !IsDigestBlock(cfg, b, level)
  {
    var p := LevelInterval(cfg, level);
    PositiveMultipleAtLeast(block, p);
    var q := block / p;
    assert block == q * p;
    assert block - p == (q - 1) * p;
    ModOfMultiple(block - p, p, q - 1);
    forall b | b in DigestSpan(cfg, block, level)
      ensures !IsDigestBlock(cfg, b, level)
    {
      DigestSpanMembers(cfg, block, level, b);
      if b % p == 0 {
        MultiplesApart(b, block, p);
      }
    }
  }

  /** The level-`level` digest block whose span holds a block that is not itself such a digest block. */
  function CoveringDigestBlock(cfg: Configuration, b: nat, level: nat): (covering: nat)
    requires LevelEnabled(cfg, level) && b > 0 && !IsDigestBlock(cfg, b, level)
    ensures IsDigestBlock(cfg, covering, level)
    ensures b in DigestSpan(cfg, covering, level)
  {
    var p := LevelInterval(cfg, level);
    var q := b / p;
    var covering := (q + 1) * p;
    ModOfMultiple(covering, p, q + 1);
    assert b == q * p + b % p && 0 < b % p < p;
    assert covering == q * p + p;
    DigestSpanMembers(cfg, covering, level, b);
    covering
  }

  /**
   * The spans of one level do not overlap: a block lies in the spans of two
   * level-`level` digests only when they are the same digest. With
   * CoveringDigestBlock, the spans of one level tile the blocks.
   */
  lemma SpansDoNotOverlap(cfg: Configuration, level: nat, b: nat, digest1: nat, digest2: nat)
    requires IsDigestBlock(cfg, digest1, level) && b in DigestSpan(cfg, digest1, level)
    requires IsDigestBlock(cfg, digest2, level) && b in DigestSpan(cfg, digest2, level)
    ensures digest1 == digest2
  {
    var p := LevelInterval(cfg, level);
    DigestSpanMembers(cfg, digest1, level, b);
    DigestSpanMembers(cfg, digest2, level, b);
    if digest1 < digest2 {
      MultiplesApart(digest1, digest2, p);
    } else if digest2 < digest1 {
      MultiplesApart(digest2, digest1, p);
    }
  }

  /**
   * The span as worded with a product instead of a power leaves blocks
   * unsummarised: with N = 4 and two levels, blocks 4 and 8 carry level-1
   * digests and are not level-2 digest blocks, yet they lie in the
   * product-form span of no level-2 digest block (the first one, block 16,
   * would cover only 9..15). The power-form span of block 16 holds them.
   */
  lemma DocSpanLeavesBlockUncovered()
    ensures IsDigestBlock(Configuration(4, 2), 4, 1) && IsDigestBlock(Configuration(4, 2), 8, 1)
    ensures !IsDigestBlock(Configuration(4, 2), 4, 2) && !IsDigestBlock(Configuration(4, 2), 8, 2)
    ensures forall block: nat :: IsDigestBlock(Configuration(4, 2), block, 2) ==>
              4 !in DocSpanAsWritten(Configuration(4, 2), block, 2) &&
              8 !in DocSpanAsWritten(Configuration(4, 2), block, 2)
    ensures IsDigestBlock(Configuration(4, 2), 16, 2)
    ensures 4 in DigestSpan(Configuration(4, 2), 16, 2) && 8 in DigestSpan(Configuration(4, 2), 16, 2)
  {
    var cfg := Configuration(4, 2);
    assert LevelInterval(cfg, 1) == 4;
    assert LevelInterval(cfg, 2) == 16;
    forall block: nat | IsDigestBlock(cfg, block, 2)
      ensures 4 !in DocSpanAsWritten(cfg, block, 2) && 8 !in DocSpanAsWritten(cfg, block, 2)
    {
      PositiveMultipleAtLeast(block, 16);
      var span := DocSpanAsWritten(cfg, block, 2);
      assert forall i :: 0 <= i < |span| ==> span[i] >= block - 7;
    }
    DigestSpanMembers(cfg, 16, 2, 4);
    DigestSpanMembers(cfg, 16, 2, 8);
  }
}

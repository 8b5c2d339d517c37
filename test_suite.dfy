/**
 * The fixed test catalogue and its tier policy (mini-git-interview/src/lib/test-suite.ts):
 * 28 tests in five tiers, visibility derived from the tier, a points budget per
 * tier, and the per-tier test counts that the scorer divides by.
 */
module TestSuite {
  import opened Types

  /** Builds a catalogue entry; visibility is never stored independently of the tier. */
  function MakeTest(name: string, tier: Tier): (t: TestCase)
    ensures t.name == name && t.tier == tier
    ensures t.visible <==> tier in {1, 2}
  {
    TestCase(name, tier, tier <= 2)
  }

  /** Tier 1 (25 points, visible): init, add, commit, log basics. */
  const Tier1Tests: seq<TestCase> := [
    MakeTest("init() creates a repository", 1),
    MakeTest("add() stages a file", 1),
    MakeTest("commit() creates a commit and returns hash", 1),
    MakeTest("log() returns empty array when no commits", 1),
    MakeTest("log() returns commits in reverse chronological order", 1),
    MakeTest("log() entries have hash and message fields", 1),
    MakeTest("commit() with multiple files", 1)
  ]

  /** Tier 2 (25 points, visible): branch, checkout, isolation. */
  const Tier2Tests: seq<TestCase> := [
    MakeTest("branch() creates a new branch", 2),
    MakeTest("checkout() switches to an existing branch", 2),
    MakeTest("branches are isolated - commits on one branch don't appear on another", 2),
    MakeTest("checkout() throws on non-existent branch", 2),
    MakeTest("branch() creates branch at current HEAD", 2),
    MakeTest("checkout() back and forth preserves state", 2)
  ]

  /** Tier 3 (20 points, hidden): status() and diff(). */
  const Tier3Tests: seq<TestCase> := [
    MakeTest("status() shows staged files", 3),
    MakeTest("status() shows no staged files after commit", 3),
    MakeTest("status() shows modified files", 3),
    MakeTest("diff() shows added files", 3),
    MakeTest("diff() shows modified files", 3),
    MakeTest("diff() returns empty array when no changes", 3)
  ]

  /** Tier 4 (20 points, hidden): merge. */
  const Tier4Tests: seq<TestCase> := [
    MakeTest("merge() fast-forward merge", 4),
    MakeTest("merge() three-way merge creates merge commit", 4),
    MakeTest("merge() detects conflicts", 4),
    MakeTest("merge() non-conflicting changes to different files", 4)
  ]

  /** Tier 5 (10 points, hidden): edge cases. */
  const Tier5Tests: seq<TestCase> := [
    MakeTest("commit() throws when nothing staged", 5),
    MakeTest("branch() throws for duplicate branch name", 5),
    MakeTest("log() on new branch with no extra commits shows parent commits", 5),
    MakeTest("complex operations maintain consistency", 5),
    MakeTest("add() overwrites previously staged content", 5)
  ]

  /** The catalogue, in declaration order (tier, then position in the file). */
  const Catalogue: seq<TestCase> := Tier1Tests + Tier2Tests + Tier3Tests + Tier4Tests + Tier5Tests

  /** The points budget table; only tiers 1..5 have an entry. */
  const TierPointsTable: map<int, nat> := map[1 := 25, 2 := 25, 3 := 20, 4 := 20, 5 := 10]

  /** `tierPoints[tier] || 0`: the budget of a tier, 0 for a key the table lacks. */
  function TierPoints(tier: int): (p: nat)
    ensures tier !in TierPointsTable ==> p == 0
    ensures tier in TierPointsTable ==> p == TierPointsTable[tier]
  {
    if tier in TierPointsTable then TierPointsTable[tier] else 0
  }

  /** Sum of the budgets of tiers lo..hi-1. */
  function BudgetSum(lo: int, hi: int): (s: nat)
    decreases hi - lo
  {
    if lo >= hi then 0 else TierPoints(lo) + BudgetSum(lo + 1, hi)
  }

  /** The five budgets add up to exactly 100 points. */
  lemma BudgetsSumToHundred()
    ensures BudgetSum(1, 6) == 100
    ensures forall t :: t in TierPointsTable <==> 1 <= t <= 5
  {
    assert BudgetSum(5, 6) == 10;
    assert BudgetSum(4, 6) == 30;
    assert BudgetSum(3, 6) == 50;
  }

  /** Number of entries of `suite` whose tier is `tier` (counted from the end). */
  function CountTier(suite: seq<TestCase>, tier: int): (n: nat)
    ensures n <= |suite|
  {
    if suite == [] then 0
    else CountTier(suite[..|suite| - 1], tier) + (if suite[|suite| - 1].tier == tier then 1 else 0)
  }

  /**
   * The loop that fills `tierTestCounts`: each entry's tier key is incremented,
   * starting from `|| 0` when the key is absent.
   */
  method TierTestCounts(suite: seq<TestCase>) returns (counts: map<int, nat>)
    ensures forall t :: t in counts <==> CountTier(suite, t) > 0
    ensures forall t :: t in counts ==> counts[t] == CountTier(suite, t)
  {
    counts := map[];
    for i := 0 to |suite|
      invariant forall t :: t in counts <==> CountTier(suite[..i], t) > 0
      invariant forall t :: t in counts ==> counts[t] == CountTier(suite[..i], t)
    {
      var tier := suite[i].tier;
      var previous := if tier in counts then counts[tier] else 0;
      assert suite[..i + 1][..i] == suite[..i];
      counts := counts[tier := previous + 1];
    }
    assert suite[..|suite|] == suite;
  }

  /** CountTier over a concatenation is the sum of the counts of the parts. */
  lemma {:induction false} CountTierAppend(a: seq<TestCase>, b: seq<TestCase>, tier: int)
    ensures CountTier(a + b, tier) == CountTier(a, tier) + CountTier(b, tier)
    decreases |b|
  {
    if b == [] {
      assert a + b == a;
    } else {
      var b' := b[..|b| - 1];
      assert (a + b)[..|a + b| - 1] == a + b';
      CountTierAppend(a, b', tier);
    }
  }

  /** A block whose entries all have tier `tier` counts its full length at that tier and 0 at any other. */
  lemma {:induction false} CountUniformBlock(block: seq<TestCase>, tier: Tier, other: int)
    requires forall i :: 0 <= i < |block| ==> block[i].tier == tier
    ensures CountTier(block, other) == if other == tier then |block| else 0
  {
    if block != [] {
      CountUniformBlock(block[..|block| - 1], tier, other);
    }
  }

  /** Every entry's visibility is exactly `tier <= 2`. */
  lemma CatalogueVisibility()
    ensures |Catalogue| == 28
    ensures forall i :: 0 <= i < |Catalogue| ==> (Catalogue[i].visible <==> Catalogue[i].tier <= 2)
  {
  }

  /** The catalogue is ordered by non-decreasing tier. */
  lemma CatalogueOrderedByTier()
    ensures forall i, j :: 0 <= i < j < |Catalogue| ==> Catalogue[i].tier <= Catalogue[j].tier
  {
  }

  /** The per-tier counts are 7, 6, 6, 4, 5; every other key counts 0; together they cover all 28 tests. */
  lemma CatalogueTierCounts()
    ensures CountTier(Catalogue, 1) == 7 && CountTier(Catalogue, 2) == 6 && CountTier(Catalogue, 3) == 6
    ensures CountTier(Catalogue, 4) == 4 && CountTier(Catalogue, 5) == 5
    ensures forall t :: !(1 <= t <= 5) ==> CountTier(Catalogue, t) == 0
    ensures CountTier(Catalogue, 1) + CountTier(Catalogue, 2) + CountTier(Catalogue, 3)
          + CountTier(Catalogue, 4) + CountTier(Catalogue, 5) == |Catalogue|
  {
    forall t: int
      ensures CountTier(Catalogue, t)
           == (if t == 1 then 7 else if t == 2 then 6 else if t == 3 then 6 else if t == 4 then 4 else if t == 5 then 5 else 0)
    {
      CountUniformBlock(Tier1Tests, 1, t);
      CountUniformBlock(Tier2Tests, 2, t);
      CountUniformBlock(Tier3Tests, 3, t);
      CountUniformBlock(Tier4Tests, 4, t);
      CountUniformBlock(Tier5Tests, 5, t);
      CountTierAppend(Tier1Tests, Tier2Tests, t);
      CountTierAppend(Tier1Tests + Tier2Tests, Tier3Tests, t);
      CountTierAppend(Tier1Tests + Tier2Tests + Tier3Tests, Tier4Tests, t);
      CountTierAppend(Tier1Tests + Tier2Tests + Tier3Tests + Tier4Tests, Tier5Tests, t);
    }
  }
}

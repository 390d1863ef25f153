/**
 * The static reward catalog (server.js:78-85) and `getUserRewards`
 * (server.js:97-102), which marks each tier unlocked when the total raised has
 * reached its threshold.
 */
module Rewards {

  datatype RewardTier = RewardTier(id: int, title: string, description: string, threshold: int, icon: string)

  /** `{ ...reward, unlocked }`: a tier together with its flag for one total. */
  datatype RewardStatus = RewardStatus(tier: RewardTier, unlocked: bool)

  const Catalog: seq<RewardTier> := [
    RewardTier(1, "First Donation", "Receive your first donation", 1, "\U{1F3AF}"),
    RewardTier(2, "Fundraising Rookie", "Raise $500", 500, "\U{1F31F}"),
    RewardTier(3, "Rising Star", "Raise $1,000", 1000, "\U{2B50}"),
    RewardTier(4, "Fundraising Pro", "Raise $2,500", 2500, "\U{1F3C6}"),
    RewardTier(5, "Top Performer", "Raise $5,000", 5000, "\U{1F451}"),
    RewardTier(6, "Fundraising Legend", "Raise $10,000", 10000, "\U{1F396}\U{FE0F}")
  ]

  /** Thresholds never decrease along the list. */
  ghost predicate Ascending(tiers: seq<RewardTier>) {
    forall i, j :: 0 <= i < j < |tiers| ==> tiers[i].threshold <= tiers[j].threshold
  }

  /** `tiers.map(reward => ({ ...reward, unlocked: total >= reward.threshold }))`. */
  function Evaluate(tiers: seq<RewardTier>, total: int): (r: seq<RewardStatus>)
    ensures |r| == |tiers|
    ensures forall i :: 0 <= i < |r| ==> r[i].tier == tiers[i]
    ensures forall i :: 0 <= i < |r| ==> (r[i].unlocked <==> total >= tiers[i].threshold)
  {
    if tiers == [] then []
    else [RewardStatus(tiers[0], total >= tiers[0].threshold)] + Evaluate(tiers[1..], total)
  }

  /** `getUserRewards(totalRaised)`. */
  function UserRewards(total: int): (r: seq<RewardStatus>)
    ensures |r| == |Catalog|
  {
    Evaluate(Catalog, total)
  }

  /** Just the unlocked flags, in catalog order. */
  function Flags(r: seq<RewardStatus>): (flags: seq<bool>)
    ensures |flags| == |r|
    ensures forall i :: 0 <= i < |r| ==> flags[i] == r[i].unlocked
  {
    if r == [] then [] else [r[0].unlocked] + Flags(r[1..])
  }

  /** How many tiers a total reaches. */
  function CountReached(tiers: seq<RewardTier>, total: int): (n: nat)
    ensures n <= |tiers|
  {
    if tiers == [] then 0
    else (if total >= tiers[0].threshold then 1 else 0) + CountReached(tiers[1..], total)
  }

  lemma CatalogAscending()
    ensures Ascending(Catalog)
  {
  }

  lemma {:induction false} NoneReached(tiers: seq<RewardTier>, total: int)
    requires forall i :: 0 <= i < |tiers| ==> total < tiers[i].threshold
    ensures CountReached(tiers, total) == 0
  {
    if tiers != [] {
      assert forall i :: 0 <= i < |tiers[1..]| ==> tiers[1..][i] == tiers[i + 1];
      NoneReached(tiers[1..], total);
    }
  }

  /**
   * With ascending thresholds the unlocked tiers are exactly the first
   * `CountReached` ones: the flags form a prefix of `true`s.
   */
  lemma {:induction false} UnlockedArePrefix(tiers: seq<RewardTier>, total: int)
    requires Ascending(tiers)
    ensures forall i :: 0 <= i < |tiers| ==> (Evaluate(tiers, total)[i].unlocked <==> i < CountReached(tiers, total))
  {
    if tiers != [] {
      assert forall i :: 0 <= i < |tiers[1..]| ==> tiers[1..][i] == tiers[i + 1];
      UnlockedArePrefix(tiers[1..], total);
      if total < tiers[0].threshold {
        NoneReached(tiers[1..], total);
      }
    }
  }

  /** The catalog's unlocked flags always form a prefix. */
  lemma CatalogUnlockedArePrefix(total: int)
    ensures forall i, j :: 0 <= i < j < |Catalog| && UserRewards(total)[j].unlocked ==> UserRewards(total)[i].unlocked
  {
    CatalogAscending();
    UnlockedArePrefix(Catalog, total);
  }

  /** Raising the total never locks a tier that was unlocked. */
  lemma UnlockedMonotone(total: int, total': int)
    requires total <= total'
    ensures forall i :: 0 <= i < |Catalog| && UserRewards(total)[i].unlocked ==> UserRewards(total')[i].unlocked
  {
  }

  /** The catalog's thresholds, in order. */
  lemma CatalogThresholds()
    ensures |Catalog| == 6
    ensures Catalog[0].threshold == 1 && Catalog[1].threshold == 500 && Catalog[2].threshold == 1000
    ensures Catalog[3].threshold == 2500 && Catalog[4].threshold == 5000 && Catalog[5].threshold == 10000
  {
  }

  /** The worked example: 500 reaches the first two tiers and no others. */
  lemma FiveHundredUnlocksTwo()
    ensures Flags(UserRewards(500)) == [true, true, false, false, false, false]
  {
    CatalogThresholds();
    var flags := Flags(UserRewards(500));
    assert |flags| == 6;
    assert flags[0] && flags[1] && !flags[2] && !flags[3] && !flags[4] && !flags[5];
  }
}

/**
 * Customers and their two tiers.
 *
 * A Basic customer earns reward points at a rate shared by every Basic
 * customer; a VIP customer has a discount rate of their own and earns points
 * at a rate shared by every VIP customer.  The two shared rates are held in a
 * TierConfig object instead of class-level variables.
 */
module Customers {
  import opened Money

  /** The tier of a customer; a VIP carries its own discount rate. */
  datatype Tier = Basic | VIP(discountRate: real)

  /** One purchased line as recorded in an order: a snapshot, not a reference. */
  datatype Line = Line(name: string, unitPrice: real, quantity: int)

  /** A completed order in a customer's history. */
  datatype Order = Order(lines: seq<Line>, totalCost: real, earnedRewards: int, time: string)

  /** `BasicCustomer.get_reward(spend)`: points for a spend at the Basic rate. */
  function BasicReward(basicRate: real, spend: real): (r: int)
    ensures spend * basicRate - 0.5 <= r as real <= spend * basicRate + 0.5
  {
    Round(spend * basicRate)
  }

  /** `VIPCustomer.get_discount(spend)`: the discount, rounded to a whole amount. */
  function VipDiscount(discountRate: real, spend: real): (r: int)
    ensures spend * discountRate - 0.5 <= r as real <= spend * discountRate + 0.5
  {
    Round(spend * discountRate)
  }

  /**
   * `VIPCustomer.get_reward(spend)`: points for what remains of the spend
   * after the customer's discount, at the VIP rate.  The discount used here
   * is the exact product, not the rounded VipDiscount.
   */
  function VipReward(discountRate: real, vipRate: real, spend: real): (r: int)
    ensures VipBase(discountRate, vipRate, spend) - 0.5 <= r as real <= VipBase(discountRate, vipRate, spend) + 0.5
  {
    Round(VipBase(discountRate, vipRate, spend))
  }

  /** What a VIP reward is rounded from: the spend less the exact discount, at the VIP rate. */
  function VipBase(discountRate: real, vipRate: real, spend: real): real
  {
    (spend - spend * discountRate) * vipRate
  }

  /** The reward a customer of the given tier earns for a spend. */
  function Reward(tier: Tier, basicRate: real, vipRate: real, spend: real): int
  {
    match tier
    case Basic => BasicReward(basicRate, spend)
    case VIP(d) => VipReward(d, vipRate, spend)
  }

  /** The amount a VIP reward is rounded from grows with the spend when the discount rate is at most one. */
  lemma VipBaseMonotone(d: real, vipRate: real, s1: real, s2: real)
    requires 0.0 <= vipRate && d <= 1.0 && s1 <= s2
    ensures VipBase(d, vipRate, s1) <= VipBase(d, vipRate, s2)
  {
    assert (s2 - s2 * d) * vipRate - (s1 - s1 * d) * vipRate == (s2 - s1) * (1.0 - d) * vipRate;
    assert (s2 - s1) * (1.0 - d) >= 0.0;
  }

  /** With non-negative rates and a discount rate of at most one, a larger spend never earns fewer points. */
  lemma RewardMonotone(tier: Tier, basicRate: real, vipRate: real, s1: real, s2: real)
    requires 0.0 <= basicRate && 0.0 <= vipRate
    requires tier.VIP? ==> tier.discountRate <= 1.0
    requires s1 <= s2
    ensures Reward(tier, basicRate, vipRate, s1) <= Reward(tier, basicRate, vipRate, s2)
  {
    match tier
    case Basic =>
      assert s1 * basicRate <= s2 * basicRate by {
        assert (s2 - s1) * basicRate >= 0.0;
      }
      RoundMonotone(s1 * basicRate, s2 * basicRate);
    case VIP(d) =>
      VipBaseMonotone(d, vipRate, s1, s2);
      RoundMonotone(VipBase(d, vipRate, s1), VipBase(d, vipRate, s2));
  }

  /** With non-negative rates and a discount rate of at most one, no spend earns negative points. */
  lemma RewardNonNegative(tier: Tier, basicRate: real, vipRate: real, spend: real)
    requires 0.0 <= basicRate && 0.0 <= vipRate && 0.0 <= spend
    requires tier.VIP? ==> tier.discountRate <= 1.0
    ensures Reward(tier, basicRate, vipRate, spend) >= 0
  {
    RewardMonotone(tier, basicRate, vipRate, 0.0, spend);
    RoundOfInt(0);
  }

  /**
   * The VIP reward is computed from the exact discount, so it can differ
   * from the reward on the spend less the rounded discount: a spend of 10 at
   * a discount rate of 0.04 and a VIP rate of 2 earns 19 points, not 20.
   */
  lemma VipRewardUsesExactDiscount()
    ensures VipDiscount(0.04, 10.0) == 0
    ensures VipReward(0.04, 2.0, 10.0) == 19
    ensures Round((10.0 - VipDiscount(0.04, 10.0) as real) * 2.0) == 20
  {
    RoundUnique(0.4, 0);
    RoundUnique(19.2, 19);
    RoundOfInt(20);
  }

  /** The two tier-wide reward rates (class variables of BasicCustomer and VIPCustomer). */
  class TierConfig {
    var basicRate: real
    var vipRate: real

    /** Both rates start at 1.0 (100%). */
    constructor ()
      ensures basicRate == 1.0 && vipRate == 1.0
    {
      basicRate := 1.0;
      vipRate := 1.0;
    }

    /** `BasicCustomer.set_reward_rate`: the next reward of every Basic customer uses the new rate. */
    method SetBasicRate(value: real) returns (r: real)
      modifies this`basicRate
      ensures basicRate == value && r == value
      ensures forall c: Customer, spend :: c.tier.Basic? ==> c.GetReward(this, spend) == Round(spend * value)
      ensures vipRate == old(vipRate)
    {
      basicRate := value;
      r := basicRate;
    }

    /** `VIPCustomer.set_reward_rate`: the next reward of every VIP customer uses the new rate. */
    method SetVipRate(value: real)
      modifies this`vipRate
      ensures vipRate == value
      ensures forall c: Customer, spend :: c.tier.VIP? ==>
        c.GetReward(this, spend) == VipReward(c.tier.discountRate, value, spend)
      ensures basicRate == old(basicRate)
    {
      vipRate := value;
    }
  }

  /** A customer: fixed ID and name, a tier, a reward-point balance and an order history. */
  class Customer {
    const id: string
    const name: string
    var tier: Tier
    var balance: int
    var history: seq<Order>

    /** `BasicCustomer(ID, name, reward)` or `VIPCustomer(ID, name, reward, discount_rate)`. */
    constructor (id: string, name: string, tier: Tier, balance: int)
      ensures this.id == id && this.name == name && this.tier == tier
      ensures this.balance == balance && history == []
    {
      this.id := id;
      this.name := name;
      this.tier := tier;
      this.balance := balance;
      history := [];
    }

    /** `get_reward(spend)`, dispatched on the tier, with the tier-wide rates of cfg. */
    function GetReward(cfg: TierConfig, spend: real): int
      reads this, cfg
    {
      Reward(tier, cfg.basicRate, cfg.vipRate, spend)
    }

    /** `update_reward(value)`: adds a signed amount to the balance. */
    method UpdateReward(value: int)
      modifies this`balance
      ensures balance == old(balance) + value
    {
      balance := balance + value;
    }

    /** `VIPCustomer.set_discount_rate`: only a VIP customer has a discount rate. */
    method SetDiscountRate(value: real)
      requires tier.VIP?
      modifies this`tier
      ensures tier == VIP(value)
    {
      tier := VIP(value);
    }
  }
}

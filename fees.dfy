/**
 * EIP-1559 fee overrides for one deployment transaction.
 *
 * The per-gas fee ceiling is the smaller of a volatility-tolerant bound
 * (twice the latest base fee plus a fixed tip) and the largest per-gas price
 * that keeps gasLimit * price within a hard cost cap of 1.0 ETH. All amounts
 * are unbounded integers in wei, as the script's BigInt arithmetic is.
 */
module Fees {
  import opened Wrappers

  const Gwei: nat := 1_000_000_000
  const Ether: nat := 1_000_000_000_000_000_000

  /** Hard cap on the total cost of one transaction: NODE_TX_FEE_CAP_ETH = "1.0" ETH. */
  const CapWei: nat := Ether
  /** Priority fee bid: TIP_GWEI = "2" gwei. */
  const TipWei: nat := 2 * Gwei
  /** Base fee assumed when the latest block reports none. */
  const DefaultBaseFee: nat := Gwei

  /** Gas-limit hints of the two deployments. */
  const GlTreasury: nat := 1_800_000
  const GlCore: nat := 2_500_000

  /** The fee fields handed to the deployment as transaction overrides. */
  datatype FeePlan = FeePlan(maxFeePerGas: nat, maxPriorityFeePerGas: nat, gasLimit: nat)

  /** BigInt division by a zero hint throws a RangeError. */
  datatype FeeError = DivisionByZero

  /** The base fee the computation uses: the block's own, or 1 gwei when it has none. */
  function BaseFee(latestBaseFee: Option<nat>): nat {
    latestBaseFee.GetOr(DefaultBaseFee)
  }

  /** The volatility-tolerant ceiling: two base fees plus the tip. */
  function ReasonableMaxFee(baseFee: nat): nat {
    2 * baseFee + TipWei
  }

  /** Floor division with its two defining bounds. */
  lemma DivisionBounds(a: nat, b: nat)
    requires b > 0
    ensures (a / b) * b <= a < (a / b + 1) * b
  {
  }

  /**
   * The cap-derived ceiling CapWei / gasLimitHint: the largest per-gas price
   * whose cost over the whole gas limit stays within the cap.
   */
  function MaxAllowedByCap(gasLimitHint: nat): (r: nat)
    requires gasLimitHint > 0
    ensures r * gasLimitHint <= CapWei < (r + 1) * gasLimitHint
  {
    var r := CapWei / gasLimitHint;
    DivisionBounds(CapWei, gasLimitHint);
    r
  }

  /**
   * The fee overrides for a deployment with the given gas-limit hint, given
   * the latest block's base fee (None when the block carries none).
   */
  function FeePlanFor(latestBaseFee: Option<nat>, gasLimitHint: nat): (r: Result<FeePlan, FeeError>)
    ensures r.Failure? <==> gasLimitHint == 0
    ensures r.Success? ==> r.value.gasLimit == gasLimitHint
  {
    if gasLimitHint == 0 then
      Failure(DivisionByZero)
    else
      var reasonableMaxFee := ReasonableMaxFee(BaseFee(latestBaseFee));
      var maxAllowedByCap := MaxAllowedByCap(gasLimitHint);
      var maxFeePerGas := if reasonableMaxFee < maxAllowedByCap then reasonableMaxFee else maxAllowedByCap;
      var maxPriorityFeePerGas := if TipWei > maxFeePerGas then maxFeePerGas else TipWei;
      Success(FeePlan(maxFeePerGas, maxPriorityFeePerGas, gasLimitHint))
  }

  /**
   * The worst-case cost gasLimitHint * maxFeePerGas never exceeds the 1.0 ETH
   * cap, whatever the base fee.
   */
  lemma CostWithinCap(latestBaseFee: Option<nat>, gasLimitHint: nat)
    requires gasLimitHint > 0
    ensures FeePlanFor(latestBaseFee, gasLimitHint).Success?
    ensures gasLimitHint * FeePlanFor(latestBaseFee, gasLimitHint).value.maxFeePerGas <= CapWei
  {
  }

  /**
   * maxFeePerGas is the minimum of the two ceilings: below both, and equal to
   * one of them.
   */
  lemma MaxFeeIsMinimum(latestBaseFee: Option<nat>, gasLimitHint: nat)
    requires gasLimitHint > 0
    ensures var plan := FeePlanFor(latestBaseFee, gasLimitHint).value;
      var reasonable := 2 * BaseFee(latestBaseFee) + TipWei;
      && plan.maxFeePerGas <= reasonable
      && plan.maxFeePerGas <= CapWei / gasLimitHint
      && (plan.maxFeePerGas == reasonable || plan.maxFeePerGas == CapWei / gasLimitHint)
  {
  }

  /**
   * No per-gas price that respects both the volatility ceiling and the cost
   * cap is higher than maxFeePerGas: the plan bids as much as the cap allows.
   */
  lemma MaxFeeIsLargestAffordable(latestBaseFee: Option<nat>, gasLimitHint: nat, price: nat)
    requires gasLimitHint > 0
    requires price <= 2 * BaseFee(latestBaseFee) + TipWei
    requires price * gasLimitHint <= CapWei
    ensures price <= FeePlanFor(latestBaseFee, gasLimitHint).value.maxFeePerGas
  {
  }

  /**
   * The plan meets the EIP-1559 validity condition
   * max_fee_per_gas >= max_priority_fee_per_gas, and the priority fee is the
   * tip, trimmed to maxFeePerGas only when the tip would exceed it.
   */
  lemma PriorityFeeWithinMaxFee(latestBaseFee: Option<nat>, gasLimitHint: nat)
    requires gasLimitHint > 0
    ensures var plan := FeePlanFor(latestBaseFee, gasLimitHint).value;
      && plan.maxPriorityFeePerGas <= plan.maxFeePerGas
      && plan.maxPriorityFeePerGas <= TipWei
      && (plan.maxPriorityFeePerGas == TipWei || plan.maxPriorityFeePerGas == plan.maxFeePerGas)
  {
  }

  /** A block without a base fee is priced as a block whose base fee is 1 gwei. */
  lemma MissingBaseFeeIsOneGwei(gasLimitHint: nat)
    ensures FeePlanFor(None, gasLimitHint) == FeePlanFor(Some(Gwei), gasLimitHint)
  {
  }

  /**
   * For the two hints the script uses the cap never trims the tip: the priority
   * fee is the full 2 gwei and the fee ceiling is at least the tip.
   */
  lemma ScriptHintsKeepFullTip(latestBaseFee: Option<nat>, gasLimitHint: nat)
    requires gasLimitHint == GlTreasury || gasLimitHint == GlCore
    ensures var plan := FeePlanFor(latestBaseFee, gasLimitHint).value;
      plan.maxPriorityFeePerGas == TipWei && TipWei <= plan.maxFeePerGas
  {
  }

  /** Calm network: base fee 1 gwei, Treasury hint: maxFee 4 gwei, tip 2 gwei. */
  lemma CalmNetworkExample()
    ensures FeePlanFor(Some(Gwei), GlTreasury) == Success(FeePlan(4 * Gwei, 2 * Gwei, GlTreasury))
  {
  }

  /**
   * Base-fee spike of 1000 gwei, Treasury hint: the cap wins with
   * 10^18 / 1,800,000 = 555,555,555,555 wei per gas, the tip stays 2 gwei.
   */
  lemma BaseFeeSpikeExample()
    ensures FeePlanFor(Some(1000 * Gwei), GlTreasury) == Success(FeePlan(555_555_555_555, 2 * Gwei, GlTreasury))
  {
  }
}

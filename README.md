# Fee-bounded proxy deployment — a Dafny model

This project models the deployment script `scripts/deploy_proxies.js`. The
script deploys two upgradeable proxies, `VeryPoolTreasury` and
`VeryPoolCore`, onto an EVM chain. Core is initialised with the address of
the Treasury proxy, so Core depends on Treasury.

Before each deployment the script computes EIP-1559 fee overrides:

- `maxFeePerGas` is the smaller of two ceilings:
  - `2 * baseFee + tip`, where `baseFee` is the latest block's base fee, or 1 gwei when the block has none, and the tip is 2 gwei;
  - `1 ETH / gasLimitHint`, using integer division.
- `maxPriorityFeePerGas` is the tip, cut down to `maxFeePerGas` when the tip is larger.

As a result, no transaction sent with these overrides is priced above 1.0 ETH: its gas limit times its max fee per gas is at most the cap.

`main` has two scenarios:

- **Existing Treasury.** When `TREASURY_PROXY` is set, the script inspects that proxy and deploys only Core against it.
- **Fresh deployment.** Otherwise the script deploys Treasury, then deploys Core against the Treasury it just deployed.

The model is of a run against the `very` network of `hardhat.config.js` (`--network very`), whose only account is the one `OWNER_KEY` configures. Hardhat's default in-process network supplies its own accounts whatever `OWNER_KEY` says, so the missing-signer failure below does not arise there.

Modules:

- `Wrappers` (`wrappers.dfy`): `Option` and `Result`.
- `Fees` (`fees.dfy`): `feeOverrides` as a pure function on unbounded naturals, which is what the script's BigInt wei values are, plus lemmas about it.
- `Deployment` (`deployment.dfy`): the script's steps as methods on a `Runtime` object, which stands for the hardhat runtime. The object holds:
  - `OWNER_KEY` and the signer it configures;
  - the base fee that each successive block read sees;
  - the receipt that each successive deployment gets;
  - the set of addresses that hold an EIP-1967 proxy;
  - a log of every request the script sends: block reads, proxy deployments and proxy inspections.

  Each method states exactly which requests it appends to the log, what it returns, and how the counters of block reads and deployments and the set of proxies change. The two scenarios' logs are the functions `ExistingTreasuryLog` and `FreshDeploymentLog`, built from one `DeployTrace` per deployment step: a block read, the deployment with the overrides priced at that read, and the inspection of the new proxy once confirmed. Two log predicates state what the script promises across a whole run:
  - `CoreAfterResolvedTreasury`: every Core deployment names, as its second initializer argument, a Treasury address that was already resolved to a proxy earlier in the log;
  - `WithinFeeCap`: every deployment's overrides are sized for that contract's gas-limit hint, stay within the cost cap, and have a priority fee no larger than the max fee.

  `Run` keeps both predicates.

Points where the script's behaviour is easy to misread:

- A zero gas-limit hint makes the BigInt division throw a `RangeError`, modelled as `DivisionByZero`. No check rejects the hint before the division.
- In the existing-Treasury scenario the script never checks `OWNER_KEY`. Without a key, `deployCore` throws a `TypeError` on the missing signer (`SignerUnavailable`) after the existing proxy has been inspected, and nothing is deployed.
- `main` has no inspect-only scenario: that call is commented out at line 120.

## Model

| member | source | states |
|---|---|---|
| `Fees.FeePlanFor` | scripts/deploy_proxies.js:15-35 | the fee computation fails exactly when the gas-limit hint is zero (BigInt division by zero); otherwise the plan's gasLimit is the hint passed in |
| `Fees.MaxAllowedByCap` | scripts/deploy_proxies.js:21-22 | the cap-derived ceiling is the largest per-gas price whose cost over the gas limit stays within the 1.0 ETH cap: the ceiling times the hint is at most the cap, and one wei per gas more exceeds it |
| `Fees.CostWithinCap` | scripts/deploy_proxies.js:20-27 | for every positive hint and every base fee, the worst-case cost `gasLimitHint * maxFeePerGas` is at most 10^18 wei |
| `Fees.MaxFeeIsMinimum` | scripts/deploy_proxies.js:20-24 | maxFeePerGas is at most `2*baseFee + tip`, at most `cap / hint`, and equal to one of the two |
| `Fees.MaxFeeIsLargestAffordable` | scripts/deploy_proxies.js:20-24 | any per-gas price that is at most `2*baseFee + tip` and keeps the cost within the cap is at most maxFeePerGas, so the cap only trims what it must |
| `Fees.PriorityFeeWithinMaxFee` | scripts/deploy_proxies.js:25 | maxPriorityFeePerGas is at most maxFeePerGas (the EIP-1559 validity condition) and at most the tip, and equals one of the two |
| `Fees.MissingBaseFeeIsOneGwei` | scripts/deploy_proxies.js:17 | a block without a base fee yields the same plan as a block whose base fee is 1 gwei |
| `Fees.ScriptHintsKeepFullTip` | scripts/deploy_proxies.js:7-25 | for the hints 1,800,000 and 2,500,000 the priority fee is the full 2 gwei and the max fee is at least the tip |
| `Fees.CalmNetworkExample` | scripts/deploy_proxies.js:15-35 | base fee 1 gwei, Treasury hint: max fee 4 gwei, priority fee 2 gwei |
| `Fees.BaseFeeSpikeExample` | scripts/deploy_proxies.js:15-35 | base fee 1000 gwei, Treasury hint: the cap wins with 555,555,555,555 wei per gas, and the priority fee stays 2 gwei |
| `Deployment.GasLimitHint` | scripts/deploy_proxies.js:8-9 | the hint of each deployment is positive, so its fee computation never divides by zero |
| `Deployment.OverridesFor` | scripts/deploy_proxies.js:52 | the overrides of a deployment carry its contract's hint as gasLimit, stay within the cost cap, keep the priority fee at most the max fee, and bid the full tip |
| `Deployment.DeployTraceDeploysOnce` | scripts/deploy_proxies.js:54-63 | one deployment step submits exactly one deployment, of its contract with its initializer arguments |
| `Deployment.NoCoreKeepsDependency` | scripts/deploy_proxies.js:47-69 | appending requests that deploy no Core, such as a Treasury deployment or an inspection, keeps Core's dependency on a resolved Treasury |
| `Deployment.CoreDeployKeepsDependency` | scripts/deploy_proxies.js:72-92 | a Core deployment step against a Treasury address that was already resolved to a proxy keeps Core's dependency |
| `Deployment.PlannedDeployKeepsFeeCap` | scripts/deploy_proxies.js:52-62 | a deployment step whose overrides come from the fee computation keeps every deployment in the log within the cost cap |
| `Deployment.ExistingTreasuryLogKept` | scripts/deploy_proxies.js:108-111 | the existing-Treasury scenario's requests only extend the log, keep Core's dependency and the fee cap, and deploy exactly one Core against the inspected address when it resolved and a signer exists, and nothing otherwise |
| `Deployment.FreshDeploymentLogKept` | scripts/deploy_proxies.js:116-117 | the fresh scenario's requests only extend the log, keep Core's dependency and the fee cap, and deploy exactly one Treasury followed, when confirmed, by exactly one Core against the Treasury proxy it returned |
| `Deployment.Runtime.constructor` | hardhat.config.js:5-14 | a fresh runtime carries the given OWNER_KEY, owner address and chain answers, with an empty log |
| `Deployment.Runtime.Signers` | hardhat.config.js:8-10 | on the `very` network the configured accounts are non-empty exactly when OWNER_KEY is set, and then the first is the owner's address |
| `Deployment.Runtime.GetLatestBaseFee` | scripts/deploy_proxies.js:16 | a block read returns the base fee of the block that is latest at that read, and logs the read |
| `Deployment.Runtime.DeployProxy` | scripts/deploy_proxies.js:54-64 | a deployment returns the next receipt, a confirmed proxy becomes a proxy address, and the request is logged with its initializer arguments and overrides |
| `Deployment.Runtime.ReadProxyInfo` | scripts/deploy_proxies.js:38-44 | inspecting an address resolves exactly when it holds a proxy, and the inspection is logged |
| `Deployment.FeeOverrides` | scripts/deploy_proxies.js:15-35 | reads the latest block once, then returns the fee plan for that block's base fee and the hint |
| `Deployment.DeployTreasury` | scripts/deploy_proxies.js:47-69 | without OWNER_KEY it fails with nothing read or deployed; otherwise it reads a block, deploys Treasury with `[owner]` and the Treasury-hint overrides, inspects the new proxy when confirmed, and returns its address |
| `Deployment.DeployCore` | scripts/deploy_proxies.js:72-94 | an empty Treasury address fails before any request; with no signer it also fails before any request; otherwise it deploys Core with exactly `[owner, treasuryProxyAddress]` and the Core-hint overrides |
| `Deployment.DeployCoreOnExistingTreasury` | scripts/deploy_proxies.js:108-113 | the new log is exactly `ExistingTreasuryLog`: the inspection of the existing Treasury, then, when it resolved and a signer exists, one Core deployment step priced at the next block read; an address that holds no proxy fails with `ProxyNotFound`, and a missing signer with `SignerUnavailable`, both with nothing read or deployed; otherwise exactly one block read and one Core deployment with `[owner, existing]`, whose receipt decides the result; no Treasury is deployed |
| `Deployment.DeployTreasuryThenCore` | scripts/deploy_proxies.js:115-117 | without OWNER_KEY nothing happens; otherwise the new log is exactly `FreshDeploymentLog`, with the Treasury priced at the first block read and Core at the second, and each confirmed proxy inspected; exactly one Treasury deployment precedes at most one Core deployment, and Core's second initializer argument is the Treasury address the first deployment returned; a rejected Treasury ends the run after one deployment, a confirmed one is followed by exactly one Core deployment whose receipt decides the result |
| `Deployment.Run` | scripts/deploy_proxies.js:102-121 | picks the scenario from the existing Treasury address; in both scenarios the log only grows and Core's dependency and the fee cap are kept; it states the exact new log, the result, the block reads, the deployments and the proxies of every path (`ProxyNotFound`, `SignerUnavailable`, `MissingOwnerKey`, `DeploymentRejected`, or the two proxies), and a completed run leaves two proxies with Core the last deployment of this run |

## Left out

- Console output and the decimal formatting by `formatUnits` and `formatEther` (lines 28-32) are presentation only. The logged `expectedMaxCost` appears in the model only as the product bounded by `Fees.CostWithinCap`.
- The implementation and admin addresses that the EIP-1967 slot reads return (lines 39-40) are computed inside the OpenZeppelin library, which is not part of this model. `Deployment.Runtime.ReadProxyInfo` records only whether the address resolved to a proxy.
- `getContractFactory` only loads a local compiled artifact, so it is not modelled. `waitForDeployment` and `getAddress` are folded into the receipt that `Deployment.Runtime.DeployProxy` returns.
- The chain's answers are not derived from a fee market or from consensus:
  - the base fee a block read sees is an arbitrary function of how many reads came before;
  - a deployment's fate is an arbitrary function of how many deployments came before;
  - whether a transaction whose max fee is below the base fee gets included is outside the model.
- Network failure, revert and timeout of a deployment are one error, `DeploymentRejected`. There is no retry, as in the source.
- `Deployment.Runtime.GetLatestBaseFee` and `Deployment.Runtime.ReadProxyInfo` never fail in the model: a `getBlock` call (line 16) or a slot read (lines 39-40) that throws on a network error is not modelled. In the script such a throw ends `main`; in particular a failed inspection of a just-deployed Treasury (line 67) means Core is never deployed, which the model's "confirmed Treasury is followed by one Core deployment" does not capture.
- `Deployment.Runtime.DeployProxy` stands for one `upgrades.deployProxy` call, which may send several transactions (an implementation and a proxy), all under the same overrides (line 59). The fee cap therefore bounds each of those transactions, not their sum.
- `dotenv` loading, the `process.exit(1)` handler, asynchronous suspension, a malformed `OWNER_KEY` rejected by hardhat, and the RPC URL and chain ID in `hardhat.config.js` are process plumbing or configuration.
- Gas-limit hints are natural numbers. A negative BigInt hint cannot be passed to `Fees.FeePlanFor`. The script passes only the two positive constants.
- `scripts/deploy_proxies.ts` is a fee-less copy of the fresh-deployment scenario. It is not part of this model.
- The commented-out lines of `main` are not modelled: the first form of the fresh scenario (lines 104-105) and the inspect-only call (line 120).

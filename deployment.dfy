/**
 * Sequenced deployment of the Treasury and Core upgradeable proxies.
 *
 * The hardhat runtime the script talks to is a `Runtime` object: its
 * environment (OWNER_KEY and the signer it yields), the chain's answers
 * (the base fee of the latest block at each read, the receipt of each
 * deployment), the set of addresses that hold an EIP-1967 proxy, and a log of
 * every request the script sends to the chain or to the proxy library. The
 * script's steps are methods that consult the runtime and append to its log;
 * their contracts state the exact requests made, and the log predicates below
 * state the orderings the script promises.
 */
module Deployment {
  import opened Wrappers
  import opened Fees

  /** A hex account or contract address; the empty string is JavaScript-falsy. */
  type Address = string

  /** The address of a deployed proxy, never empty. */
  type ProxyAddress = a: Address | a != [] witness "0x0"

  /** The two contracts the script deploys behind proxies. */
  datatype Contract = VeryPoolTreasury | VeryPoolCore

  /** How a submitted deployment ends: confirmed at a proxy address, or not at all. */
  datatype Receipt = Confirmed(proxy: ProxyAddress) | Rejected

  /** A request sent to the chain or to the proxy library. */
  datatype Event =
    | GetBlock
    | ProxyDeployed(contract: Contract, initArgs: seq<Address>, overrides: FeePlan)
    | Inspect(proxy: Address, resolved: bool)

  /** A deployment as the proxy library sees it: which contract, which initializer arguments. */
  datatype Request = Request(contract: Contract, initArgs: seq<Address>)

  /** Why a step throws. */
  datatype Error =
    | MissingOwnerKey          // OWNER_KEY absent or empty
    | SignerUnavailable        // no signer, so `deployer.address` throws a TypeError
    | TreasuryAddressRequired  // deployCore called with an empty Treasury address
    | DeploymentRejected       // the deployment transaction failed or was never confirmed
    | ProxyNotFound            // the address holds no EIP-1967 proxy

  /** The two proxy addresses a completed run leaves behind. */
  datatype DeployedProxies = DeployedProxies(treasury: Address, core: Address)

  /** The gas-limit hint each deployment's fee plan is computed for. */
  function GasLimitHint(contract: Contract): (gas: nat)
    ensures gas > 0
  {
    match contract
    case VeryPoolTreasury => GlTreasury
    case VeryPoolCore => GlCore
  }

  /**
   * The fee overrides of a deployment of `contract` when the latest block's
   * base fee is `latestBaseFee`: sized for the contract's hint, within the
   * cost cap, valid under EIP-1559, and bidding the full tip.
   */
  function OverridesFor(contract: Contract, latestBaseFee: Option<nat>): (plan: FeePlan)
    ensures plan.gasLimit == GasLimitHint(contract)
    ensures plan.maxFeePerGas * plan.gasLimit <= CapWei
    ensures plan.maxPriorityFeePerGas <= plan.maxFeePerGas
    ensures plan.maxPriorityFeePerGas == TipWei
  {
    var gas := GasLimitHint(contract);
    CostWithinCap(latestBaseFee, gas);
    ScriptHintsKeepFullTip(latestBaseFee, gas);
    FeePlanFor(latestBaseFee, gas).value
  }

  /** The proxies a receipt brings into existence. */
  function ProxiesIn(receipt: Receipt): set<Address> {
    match receipt
    case Confirmed(p) => {p}
    case Rejected => {}
  }

  /** What a deployment step returns for a receipt. */
  function ReceiptResult(receipt: Receipt): Result<Address, Error> {
    match receipt
    case Confirmed(p) => Success(p)
    case Rejected => Failure(DeploymentRejected)
  }

  /**
   * The requests of one deployment step: read the latest block, submit the
   * deployment, and, once confirmed, read back the new proxy's
   * implementation and admin.
   */
  function DeployTrace(contract: Contract, initArgs: seq<Address>, plan: FeePlan, receipt: Receipt): seq<Event> {
    [GetBlock, ProxyDeployed(contract, initArgs, plan)] +
    match receipt
    case Confirmed(p) => [Inspect(p, true)]
    case Rejected => []
  }

  /** What a scenario returns once Core's deployment step has returned `core`. */
  function Completed(treasury: Address, core: Result<Address, Error>): Result<DeployedProxies, Error> {
    match core
    case Success(c) => Success(DeployedProxies(treasury, c))
    case Failure(e) => Failure(e)
  }

  /** The deployments a log records, in the order they were submitted. */
  function Deployments(events: seq<Event>): seq<Request> {
    if events == [] then []
    else
      var head := match events[0]
        case ProxyDeployed(contract, initArgs, _) => [Request(contract, initArgs)]
        case _ => [];
      head + Deployments(events[1..])
  }

  /** Deployments are counted the same over a whole log and over its two halves. */
  lemma {:induction false} DeploymentsAppend(a: seq<Event>, b: seq<Event>)
    ensures Deployments(a + b) == Deployments(a) + Deployments(b)
  {
    if a != [] {
      assert (a + b)[0] == a[0];
      assert (a + b)[1..] == a[1..] + b;
      DeploymentsAppend(a[1..], b);
    } else {
      assert a + b == b;
    }
  }

  /** A deployment step submits exactly one deployment. */
  lemma DeployTraceDeploysOnce(contract: Contract, initArgs: seq<Address>, plan: FeePlan, receipt: Receipt)
    ensures Deployments(DeployTrace(contract, initArgs, plan, receipt)) == [Request(contract, initArgs)]
  {
    var trace := DeployTrace(contract, initArgs, plan, receipt);
    assert trace[0] == GetBlock && trace[1] == ProxyDeployed(contract, initArgs, plan);
    assert Deployments(trace[2..]) == [];
  }

  /**
   * Core's dependency, as a property of a log: every Core deployment names a
   * Treasury address as its second initializer argument, and that address was
   * found to hold a proxy earlier in the log.
   */
  ghost predicate CoreAfterResolvedTreasury(events: seq<Event>) {
    forall j | 0 <= j < |events| && events[j].ProxyDeployed? && events[j].contract == VeryPoolCore ::
      |events[j].initArgs| == 2 && Inspect(events[j].initArgs[1], true) in events[..j]
  }

  /**
   * The fee overrides of every deployment in a log are sized for its contract,
   * within the cost cap and valid under EIP-1559.
   */
  ghost predicate WithinFeeCap(events: seq<Event>) {
    forall e | e in events && e.ProxyDeployed? ::
      && e.overrides.gasLimit == GasLimitHint(e.contract)
      && e.overrides.maxFeePerGas * e.overrides.gasLimit <= CapWei
      && e.overrides.maxPriorityFeePerGas <= e.overrides.maxFeePerGas
  }

  /** Appending a log that deploys no Core keeps Core's dependency. */
  lemma NoCoreKeepsDependency(a: seq<Event>, b: seq<Event>)
    requires forall e | e in b && e.ProxyDeployed? :: e.contract != VeryPoolCore
    ensures CoreAfterResolvedTreasury(a) ==> CoreAfterResolvedTreasury(a + b)
  {
    var ab := a + b;
    if CoreAfterResolvedTreasury(a) {
      forall j | 0 <= j < |ab| && ab[j].ProxyDeployed? && ab[j].contract == VeryPoolCore
        ensures |ab[j].initArgs| == 2 && Inspect(ab[j].initArgs[1], true) in ab[..j]
      {
        if j < |a| {
          assert ab[j] == a[j] && ab[..j] == a[..j];
        } else {
          assert false;
        }
      }
    }
  }

  /** A Core deployment step whose Treasury was resolved before keeps Core's dependency. */
  lemma CoreDeployKeepsDependency(a: seq<Event>, treasury: Address, owner: Address, plan: FeePlan, receipt: Receipt)
    requires Inspect(treasury, true) in a
    ensures CoreAfterResolvedTreasury(a) ==>
      CoreAfterResolvedTreasury(a + DeployTrace(VeryPoolCore, [owner, treasury], plan, receipt))
  {
    var ab := a + DeployTrace(VeryPoolCore, [owner, treasury], plan, receipt);
    if CoreAfterResolvedTreasury(a) {
      forall j | 0 <= j < |ab| && ab[j].ProxyDeployed? && ab[j].contract == VeryPoolCore
        ensures |ab[j].initArgs| == 2 && Inspect(ab[j].initArgs[1], true) in ab[..j]
      {
        if j < |a| {
          assert ab[j] == a[j] && ab[..j] == a[..j];
        } else {
          assert j == |a| + 1;
          assert a <= ab[..j];
        }
      }
    }
  }

  /** Appending a log whose deployments all carry planned overrides keeps the fee cap. */
  lemma PlannedDeployKeepsFeeCap(a: seq<Event>, contract: Contract, initArgs: seq<Address>, latestBaseFee: Option<nat>, receipt: Receipt)
    ensures WithinFeeCap(a) ==>
      WithinFeeCap(a + DeployTrace(contract, initArgs, OverridesFor(contract, latestBaseFee), receipt))
  {
  }

  /**
   * The hardhat runtime as the script sees it. `ownerKey` is OWNER_KEY ("" when
   * unset) and `ownerAddress` the account it signs for; `baseFeeAt(n)` is the
   * base fee of the block that is latest at the n-th block read and
   * `receiptAt(n)` the fate of the n-th deployment.
   */
  class Runtime {
    const ownerKey: string
    const ownerAddress: Address
    const baseFeeAt: nat -> Option<nat>
    const receiptAt: nat -> Receipt
    var blockReads: nat
    var deployments: nat
    var proxies: set<Address>
    var events: seq<Event>

    constructor (ownerKey: string, ownerAddress: Address, baseFeeAt: nat -> Option<nat>,
                 receiptAt: nat -> Receipt, proxies: set<Address>)
      ensures this.ownerKey == ownerKey && this.ownerAddress == ownerAddress
      ensures this.baseFeeAt == baseFeeAt && this.receiptAt == receiptAt
      ensures blockReads == 0 && deployments == 0 && this.proxies == proxies && events == []
    {
      this.ownerKey := ownerKey;
      this.ownerAddress := ownerAddress;
      this.baseFeeAt := baseFeeAt;
      this.receiptAt := receiptAt;
      blockReads := 0;
      deployments := 0;
      this.proxies := proxies;
      events := [];
    }

    /** The configured accounts: the owner's when OWNER_KEY is set, none otherwise. */
    function Signers(): (accounts: seq<Address>)
      ensures accounts != [] <==> ownerKey != []
      ensures accounts != [] ==> accounts[0] == ownerAddress
    {
      if ownerKey != [] then [ownerAddress] else []
    }

    /** Reads the latest block's base fee (None when the block has none). */
    method GetLatestBaseFee() returns (baseFeePerGas: Option<nat>)
      modifies this`blockReads, this`events
      ensures baseFeePerGas == baseFeeAt(old(blockReads))
      ensures blockReads == old(blockReads) + 1
      ensures events == old(events) + [GetBlock]
    {
      baseFeePerGas := baseFeeAt(blockReads);
      blockReads := blockReads + 1;
      events := events + [GetBlock];
    }

    /** Submits a proxy deployment and waits for its outcome. */
    method DeployProxy(contract: Contract, initArgs: seq<Address>, overrides: FeePlan) returns (receipt: Receipt)
      modifies this`deployments, this`proxies, this`events
      ensures receipt == receiptAt(old(deployments))
      ensures deployments == old(deployments) + 1
      ensures proxies == old(proxies) + ProxiesIn(receipt)
      ensures events == old(events) + [ProxyDeployed(contract, initArgs, overrides)]
    {
      receipt := receiptAt(deployments);
      deployments := deployments + 1;
      proxies := proxies + ProxiesIn(receipt);
      events := events + [ProxyDeployed(contract, initArgs, overrides)];
    }

    /** Reads a proxy's implementation and admin slots; false when it holds no proxy. */
    method ReadProxyInfo(proxy: Address) returns (resolved: bool)
      modifies this`events
      ensures resolved == (proxy in proxies)
      ensures events == old(events) + [Inspect(proxy, resolved)]
    {
      resolved := proxy in proxies;
      events := events + [Inspect(proxy, resolved)];
    }
  }

  /** Reads the latest block and computes the fee overrides for a gas-limit hint. */
  method FeeOverrides(rt: Runtime, gasLimitHint: nat) returns (r: Result<FeePlan, FeeError>)
    modifies rt`blockReads, rt`events
    ensures r == FeePlanFor(rt.baseFeeAt(old(rt.blockReads)), gasLimitHint)
    ensures rt.blockReads == old(rt.blockReads) + 1
    ensures rt.events == old(rt.events) + [GetBlock]
  {
    var latest := rt.GetLatestBaseFee();
    r := FeePlanFor(latest, gasLimitHint);
  }

  /**
   * Deploys the Treasury proxy with the owner as its initializer argument.
   * Without OWNER_KEY it fails before touching the chain.
   */
  method DeployTreasury(rt: Runtime) returns (r: Result<Address, Error>)
    modifies rt`blockReads, rt`deployments, rt`proxies, rt`events
    ensures rt.ownerKey == [] ==> r == Failure(MissingOwnerKey) && unchanged(rt)
    ensures rt.ownerKey != [] ==>
      var receipt := rt.receiptAt(old(rt.deployments));
      var plan := OverridesFor(VeryPoolTreasury, rt.baseFeeAt(old(rt.blockReads)));
      && r == ReceiptResult(receipt)
      && rt.events == old(rt.events) + DeployTrace(VeryPoolTreasury, [rt.ownerAddress], plan, receipt)
      && rt.blockReads == old(rt.blockReads) + 1
      && rt.deployments == old(rt.deployments) + 1
      && rt.proxies == old(rt.proxies) + ProxiesIn(receipt)
  {
    if rt.ownerKey == [] {
      r := Failure(MissingOwnerKey);
      return;
    }
    var deployer := rt.Signers()[0];
    var overrides := FeeOverrides(rt, GasLimitHint(VeryPoolTreasury));
    var receipt := rt.DeployProxy(VeryPoolTreasury, [deployer], overrides.value);
    match receipt {
      case Rejected =>
        r := Failure(DeploymentRejected);
      case Confirmed(proxy) =>
        var resolved := rt.ReadProxyInfo(proxy);
        assert resolved;
        r := Success(proxy);
    }
  }

  /**
   * Deploys the Core proxy with the owner and the Treasury proxy as its
   * initializer arguments. An empty Treasury address fails before anything
   * else; without a signer it fails before touching the chain.
   */
  method DeployCore(rt: Runtime, treasuryProxyAddress: Address) returns (r: Result<Address, Error>)
    modifies rt`blockReads, rt`deployments, rt`proxies, rt`events
    ensures treasuryProxyAddress == [] ==> r == Failure(TreasuryAddressRequired) && unchanged(rt)
    ensures treasuryProxyAddress != [] && rt.ownerKey == [] ==> r == Failure(SignerUnavailable) && unchanged(rt)
    ensures treasuryProxyAddress != [] && rt.ownerKey != [] ==>
      var receipt := rt.receiptAt(old(rt.deployments));
      var plan := OverridesFor(VeryPoolCore, rt.baseFeeAt(old(rt.blockReads)));
      && r == ReceiptResult(receipt)
      && rt.events == old(rt.events) + DeployTrace(VeryPoolCore, [rt.ownerAddress, treasuryProxyAddress], plan, receipt)
      && rt.blockReads == old(rt.blockReads) + 1
      && rt.deployments == old(rt.deployments) + 1
      && rt.proxies == old(rt.proxies) + ProxiesIn(receipt)
  {
    if treasuryProxyAddress == [] {
      r := Failure(TreasuryAddressRequired);
      return;
    }
    var signers := rt.Signers();
    if signers == [] {
      r := Failure(SignerUnavailable);
      return;
    }
    var deployer := signers[0];
    var overrides := FeeOverrides(rt, GasLimitHint(VeryPoolCore));
    var receipt := rt.DeployProxy(VeryPoolCore, [deployer, treasuryProxyAddress], overrides.value);
    match receipt {
      case Rejected =>
        r := Failure(DeploymentRejected);
      case Confirmed(proxy) =>
        var resolved := rt.ReadProxyInfo(proxy);
        assert resolved;
        r := Success(proxy);
    }
  }

  /**
   * What every run keeps of the log it extends: it only appends, Core's
   * dependency still holds, and every deployment still respects the fee cap.
   */
  ghost predicate LogKept(before: seq<Event>, after: seq<Event>) {
    && before <= after
    && (CoreAfterResolvedTreasury(before) ==> CoreAfterResolvedTreasury(after))
    && (WithinFeeCap(before) ==> WithinFeeCap(after))
  }

  /**
   * The requests of the existing-Treasury scenario: inspect the given address,
   * then, when it holds a proxy and a signer is configured, one Core
   * deployment step against it.
   */
  function ExistingTreasuryLog(existing: Address, resolved: bool, owner: Address, hasSigner: bool,
                               latestBaseFee: Option<nat>, receipt: Receipt): seq<Event> {
    [Inspect(existing, resolved)] +
    if resolved && hasSigner
    then DeployTrace(VeryPoolCore, [owner, existing], OverridesFor(VeryPoolCore, latestBaseFee), receipt)
    else []
  }

  /**
   * The requests of the fresh-deployment scenario once OWNER_KEY is set: a
   * Treasury deployment step and, when it is confirmed, a Core deployment step
   * against the Treasury proxy it returned, priced at the next block read.
   */
  function FreshDeploymentLog(owner: Address, treasuryBaseFee: Option<nat>, treasuryReceipt: Receipt,
                              coreBaseFee: Option<nat>, coreReceipt: Receipt): seq<Event> {
    DeployTrace(VeryPoolTreasury, [owner], OverridesFor(VeryPoolTreasury, treasuryBaseFee), treasuryReceipt) +
    match treasuryReceipt
    case Confirmed(treasury) =>
      DeployTrace(VeryPoolCore, [owner, treasury], OverridesFor(VeryPoolCore, coreBaseFee), coreReceipt)
    case Rejected => []
  }

  /**
   * The existing-Treasury scenario's requests keep what every run keeps, and
   * deploy exactly one Core, against the inspected address, when that address
   * resolved and a signer is configured, and nothing otherwise.
   */
  lemma ExistingTreasuryLogKept(a: seq<Event>, existing: Address, resolved: bool, owner: Address, hasSigner: bool,
                                latestBaseFee: Option<nat>, receipt: Receipt)
    ensures LogKept(a, a + ExistingTreasuryLog(existing, resolved, owner, hasSigner, latestBaseFee, receipt))
    ensures Deployments(a + ExistingTreasuryLog(existing, resolved, owner, hasSigner, latestBaseFee, receipt)) ==
      Deployments(a) + if resolved && hasSigner then [Request(VeryPoolCore, [owner, existing])] else []
  {
    var inspect := [Inspect(existing, resolved)];
    NoCoreKeepsDependency(a, inspect);
    DeploymentsAppend(a, inspect);
    if resolved && hasSigner {
      var plan := OverridesFor(VeryPoolCore, latestBaseFee);
      var trace := DeployTrace(VeryPoolCore, [owner, existing], plan, receipt);
      assert a + ExistingTreasuryLog(existing, resolved, owner, hasSigner, latestBaseFee, receipt) == (a + inspect) + trace;
      CoreDeployKeepsDependency(a + inspect, existing, owner, plan, receipt);
      PlannedDeployKeepsFeeCap(a + inspect, VeryPoolCore, [owner, existing], latestBaseFee, receipt);
      DeploymentsAppend(a + inspect, trace);
      DeployTraceDeploysOnce(VeryPoolCore, [owner, existing], plan, receipt);
    } else {
      assert a + ExistingTreasuryLog(existing, resolved, owner, hasSigner, latestBaseFee, receipt) == a + inspect;
    }
  }

  /**
   * The fresh-deployment scenario's requests keep what every run keeps, and
   * deploy exactly one Treasury followed, when it is confirmed, by exactly one
   * Core against the Treasury proxy it returned.
   */
  lemma FreshDeploymentLogKept(a: seq<Event>, owner: Address, treasuryBaseFee: Option<nat>, treasuryReceipt: Receipt,
                               coreBaseFee: Option<nat>, coreReceipt: Receipt)
    ensures LogKept(a, a + FreshDeploymentLog(owner, treasuryBaseFee, treasuryReceipt, coreBaseFee, coreReceipt))
    ensures Deployments(a + FreshDeploymentLog(owner, treasuryBaseFee, treasuryReceipt, coreBaseFee, coreReceipt)) ==
      Deployments(a) + [Request(VeryPoolTreasury, [owner])] +
        match treasuryReceipt
        case Confirmed(treasury) => [Request(VeryPoolCore, [owner, treasury])]
        case Rejected => []
  {
    var log := FreshDeploymentLog(owner, treasuryBaseFee, treasuryReceipt, coreBaseFee, coreReceipt);
    var treasuryPlan := OverridesFor(VeryPoolTreasury, treasuryBaseFee);
    var treasuryTrace := DeployTrace(VeryPoolTreasury, [owner], treasuryPlan, treasuryReceipt);
    NoCoreKeepsDependency(a, treasuryTrace);
    PlannedDeployKeepsFeeCap(a, VeryPoolTreasury, [owner], treasuryBaseFee, treasuryReceipt);
    DeploymentsAppend(a, treasuryTrace);
    DeployTraceDeploysOnce(VeryPoolTreasury, [owner], treasuryPlan, treasuryReceipt);
    match treasuryReceipt {
      case Rejected =>
        assert a + log == a + treasuryTrace;
      case Confirmed(treasury) =>
        var corePlan := OverridesFor(VeryPoolCore, coreBaseFee);
        var coreTrace := DeployTrace(VeryPoolCore, [owner, treasury], corePlan, coreReceipt);
        assert a + log == (a + treasuryTrace) + coreTrace;
        assert treasuryTrace[|treasuryTrace| - 1] == Inspect(treasury, true);
        CoreDeployKeepsDependency(a + treasuryTrace, treasury, owner, corePlan, coreReceipt);
        PlannedDeployKeepsFeeCap(a + treasuryTrace, VeryPoolCore, [owner, treasury], coreBaseFee, coreReceipt);
        DeploymentsAppend(a + treasuryTrace, coreTrace);
        DeployTraceDeploysOnce(VeryPoolCore, [owner, treasury], corePlan, coreReceipt);
    }
  }

  /**
   * Scenario with an existing Treasury proxy: inspect it, then deploy only
   * Core against it.
   */
  method DeployCoreOnExistingTreasury(rt: Runtime, existingTreasuryProxy: Address) returns (r: Result<DeployedProxies, Error>)
    requires existingTreasuryProxy != []
    modifies rt`blockReads, rt`deployments, rt`proxies, rt`events
    ensures LogKept(old(rt.events), rt.events)
    ensures rt.events == old(rt.events) +
      ExistingTreasuryLog(existingTreasuryProxy, existingTreasuryProxy in old(rt.proxies), rt.ownerAddress,
                          rt.ownerKey != [], rt.baseFeeAt(old(rt.blockReads)), rt.receiptAt(old(rt.deployments)))
    ensures |rt.events| > |old(rt.events)|
    ensures rt.events[|old(rt.events)|] == Inspect(existingTreasuryProxy, existingTreasuryProxy in old(rt.proxies))
    ensures Deployments(rt.events) == Deployments(old(rt.events)) +
      if existingTreasuryProxy in old(rt.proxies) && rt.ownerKey != []
      then [Request(VeryPoolCore, [rt.ownerAddress, existingTreasuryProxy])]
      else []
    // an address without a proxy, or no signer: the run throws and nothing is read or deployed
    ensures existingTreasuryProxy !in old(rt.proxies) ==> r == Failure(ProxyNotFound)
    ensures existingTreasuryProxy in old(rt.proxies) && rt.ownerKey == [] ==> r == Failure(SignerUnavailable)
    ensures existingTreasuryProxy !in old(rt.proxies) || rt.ownerKey == [] ==>
      && rt.blockReads == old(rt.blockReads) && rt.deployments == old(rt.deployments)
      && rt.proxies == old(rt.proxies)
    // otherwise exactly one block read and one Core deployment, whose receipt decides the result
    ensures existingTreasuryProxy in old(rt.proxies) && rt.ownerKey != [] ==>
      var receipt := rt.receiptAt(old(rt.deployments));
      && r == Completed(existingTreasuryProxy, ReceiptResult(receipt))
      && rt.blockReads == old(rt.blockReads) + 1 && rt.deployments == old(rt.deployments) + 1
      && rt.proxies == old(rt.proxies) + ProxiesIn(receipt)
    ensures r.Success? ==>
      && r.value.treasury == existingTreasuryProxy && r.value.treasury in rt.proxies
      && r.value.core in rt.proxies
      && rt.deployments >= 1 && ReceiptResult(rt.receiptAt(rt.deployments - 1)) == Success(r.value.core)
  {
    ghost var start := rt.events;
    ghost var plan := OverridesFor(VeryPoolCore, rt.baseFeeAt(rt.blockReads));
    ghost var receipt := rt.receiptAt(rt.deployments);
    ghost var log := ExistingTreasuryLog(existingTreasuryProxy, existingTreasuryProxy in rt.proxies, rt.ownerAddress,
                                         rt.ownerKey != [], rt.baseFeeAt(rt.blockReads), receipt);
    ExistingTreasuryLogKept(start, existingTreasuryProxy, existingTreasuryProxy in rt.proxies, rt.ownerAddress,
                            rt.ownerKey != [], rt.baseFeeAt(rt.blockReads), receipt);
    var resolved := rt.ReadProxyInfo(existingTreasuryProxy);
    if !resolved {
      assert log == [Inspect(existingTreasuryProxy, false)];
      r := Failure(ProxyNotFound);
      return;
    }
    var core := DeployCore(rt, existingTreasuryProxy);
    if rt.ownerKey == [] {
      assert log == [Inspect(existingTreasuryProxy, true)];
    } else {
      assert log == [Inspect(existingTreasuryProxy, true)] +
        DeployTrace(VeryPoolCore, [rt.ownerAddress, existingTreasuryProxy], plan, receipt);
    }
    r := Completed(existingTreasuryProxy, core);
  }


  /**
   * Scenario without an existing Treasury: deploy Treasury, then Core against
   * the Treasury just deployed.
   */
  method DeployTreasuryThenCore(rt: Runtime) returns (r: Result<DeployedProxies, Error>)
    modifies rt`blockReads, rt`deployments, rt`proxies, rt`events
    ensures LogKept(old(rt.events), rt.events)
    ensures rt.ownerKey == [] ==> r == Failure(MissingOwnerKey) && unchanged(rt)
    ensures rt.ownerKey != [] ==>
      rt.events == old(rt.events) +
        FreshDeploymentLog(rt.ownerAddress, rt.baseFeeAt(old(rt.blockReads)), rt.receiptAt(old(rt.deployments)),
                           rt.baseFeeAt(old(rt.blockReads) + 1), rt.receiptAt(old(rt.deployments) + 1))
    ensures rt.ownerKey != [] ==>
      Deployments(rt.events) == Deployments(old(rt.events)) + [Request(VeryPoolTreasury, [rt.ownerAddress])] +
        match rt.receiptAt(old(rt.deployments))
        case Confirmed(treasury) => [Request(VeryPoolCore, [rt.ownerAddress, treasury])]
        case Rejected => []
    // a rejected Treasury ends the run after one block read and one deployment
    ensures rt.ownerKey != [] && rt.receiptAt(old(rt.deployments)).Rejected? ==>
      && r == Failure(DeploymentRejected)
      && rt.blockReads == old(rt.blockReads) + 1 && rt.deployments == old(rt.deployments) + 1
      && rt.proxies == old(rt.proxies)
    // a confirmed Treasury is followed by exactly one Core deployment, which decides the result
    ensures rt.ownerKey != [] && rt.receiptAt(old(rt.deployments)).Confirmed? ==>
      var treasury := rt.receiptAt(old(rt.deployments)).proxy;
      var core := rt.receiptAt(old(rt.deployments) + 1);
      && r == Completed(treasury, ReceiptResult(core))
      && rt.blockReads == old(rt.blockReads) + 2 && rt.deployments == old(rt.deployments) + 2
      && rt.proxies == old(rt.proxies) + {treasury} + ProxiesIn(core)
    ensures r.Success? ==>
      && ReceiptResult(rt.receiptAt(old(rt.deployments))) == Success(r.value.treasury)
      && r.value.treasury in rt.proxies && r.value.core in rt.proxies
      && rt.deployments >= 1 && ReceiptResult(rt.receiptAt(rt.deployments - 1)) == Success(r.value.core)
  {
    ghost var start := rt.events;
    ghost var readsBefore, deploysBefore := rt.blockReads, rt.deployments;
    var treasury := DeployTreasury(rt);
    if rt.ownerKey == [] {
      r := Failure(MissingOwnerKey);
      return;
    }
    ghost var log := FreshDeploymentLog(rt.ownerAddress, rt.baseFeeAt(readsBefore), rt.receiptAt(deploysBefore),
                                        rt.baseFeeAt(readsBefore + 1), rt.receiptAt(deploysBefore + 1));
    FreshDeploymentLogKept(start, rt.ownerAddress, rt.baseFeeAt(readsBefore), rt.receiptAt(deploysBefore),
                           rt.baseFeeAt(readsBefore + 1), rt.receiptAt(deploysBefore + 1));
    ghost var treasuryTrace := DeployTrace(VeryPoolTreasury, [rt.ownerAddress],
                                           OverridesFor(VeryPoolTreasury, rt.baseFeeAt(readsBefore)), rt.receiptAt(deploysBefore));
    match treasury {
      case Failure(e) =>
        assert log == treasuryTrace;
        assert rt.events == start + log;
        r := Failure(e);
      case Success(t) =>
        assert rt.receiptAt(deploysBefore) == Confirmed(t);
        var core := DeployCore(rt, t);
        assert log == treasuryTrace + DeployTrace(VeryPoolCore, [rt.ownerAddress, t],
                                                  OverridesFor(VeryPoolCore, rt.baseFeeAt(readsBefore + 1)), rt.receiptAt(deploysBefore + 1));
        assert rt.events == start + log;
        r := Completed(t, core);
    }
  }

  /**
   * The script's entry point. With an existing Treasury proxy address it
   * inspects that proxy and deploys only Core against it; otherwise it
   * deploys Treasury and then Core against the Treasury just deployed.
   */
  method Run(rt: Runtime, existingTreasuryProxy: Address) returns (r: Result<DeployedProxies, Error>)
    modifies rt`blockReads, rt`deployments, rt`proxies, rt`events
    ensures LogKept(old(rt.events), rt.events)
    // an existing Treasury: inspected first, never redeployed, Core deployed against it
    ensures existingTreasuryProxy != [] ==>
      && rt.events == old(rt.events) +
           ExistingTreasuryLog(existingTreasuryProxy, existingTreasuryProxy in old(rt.proxies), rt.ownerAddress,
                               rt.ownerKey != [], rt.baseFeeAt(old(rt.blockReads)), rt.receiptAt(old(rt.deployments)))
      && |rt.events| > |old(rt.events)|
      && rt.events[|old(rt.events)|] == Inspect(existingTreasuryProxy, existingTreasuryProxy in old(rt.proxies))
      && Deployments(rt.events) == Deployments(old(rt.events)) +
           if existingTreasuryProxy in old(rt.proxies) && rt.ownerKey != []
           then [Request(VeryPoolCore, [rt.ownerAddress, existingTreasuryProxy])]
           else []
    ensures existingTreasuryProxy != [] && existingTreasuryProxy !in old(rt.proxies) ==>
      r == Failure(ProxyNotFound)
    ensures existingTreasuryProxy != [] && existingTreasuryProxy in old(rt.proxies) && rt.ownerKey == [] ==>
      r == Failure(SignerUnavailable)
    ensures existingTreasuryProxy != [] && (existingTreasuryProxy !in old(rt.proxies) || rt.ownerKey == []) ==>
      && rt.blockReads == old(rt.blockReads) && rt.deployments == old(rt.deployments)
      && rt.proxies == old(rt.proxies)
    ensures existingTreasuryProxy != [] && existingTreasuryProxy in old(rt.proxies) && rt.ownerKey != [] ==>
      var receipt := rt.receiptAt(old(rt.deployments));
      && r == Completed(existingTreasuryProxy, ReceiptResult(receipt))
      && rt.blockReads == old(rt.blockReads) + 1 && rt.deployments == old(rt.deployments) + 1
      && rt.proxies == old(rt.proxies) + ProxiesIn(receipt)
    // no existing Treasury: OWNER_KEY checked first, then Treasury, then Core against it
    ensures existingTreasuryProxy == [] && rt.ownerKey == [] ==>
      r == Failure(MissingOwnerKey) && unchanged(rt)
    ensures existingTreasuryProxy == [] && rt.ownerKey != [] ==>
      rt.events == old(rt.events) +
        FreshDeploymentLog(rt.ownerAddress, rt.baseFeeAt(old(rt.blockReads)), rt.receiptAt(old(rt.deployments)),
                           rt.baseFeeAt(old(rt.blockReads) + 1), rt.receiptAt(old(rt.deployments) + 1))
    ensures existingTreasuryProxy == [] && rt.ownerKey != [] ==>
      Deployments(rt.events) == Deployments(old(rt.events)) + [Request(VeryPoolTreasury, [rt.ownerAddress])] +
        match rt.receiptAt(old(rt.deployments))
        case Confirmed(treasury) => [Request(VeryPoolCore, [rt.ownerAddress, treasury])]
        case Rejected => []
    ensures existingTreasuryProxy == [] && rt.ownerKey != [] && rt.receiptAt(old(rt.deployments)).Rejected? ==>
      && r == Failure(DeploymentRejected)
      && rt.blockReads == old(rt.blockReads) + 1 && rt.deployments == old(rt.deployments) + 1
      && rt.proxies == old(rt.proxies)
    ensures existingTreasuryProxy == [] && rt.ownerKey != [] && rt.receiptAt(old(rt.deployments)).Confirmed? ==>
      var treasury := rt.receiptAt(old(rt.deployments)).proxy;
      var core := rt.receiptAt(old(rt.deployments) + 1);
      && r == Completed(treasury, ReceiptResult(core))
      && rt.blockReads == old(rt.blockReads) + 2 && rt.deployments == old(rt.deployments) + 2
      && rt.proxies == old(rt.proxies) + {treasury} + ProxiesIn(core)
    // a completed run: both proxies exist, Core is the last deployment of this run
    ensures r.Success? ==>
      && r.value.treasury in rt.proxies && r.value.core in rt.proxies
      && rt.deployments > old(rt.deployments) && ReceiptResult(rt.receiptAt(rt.deployments - 1)) == Success(r.value.core)
  {
    if existingTreasuryProxy != [] {
      r := DeployCoreOnExistingTreasury(rt, existingTreasuryProxy);
      return;
    }
    r := DeployTreasuryThenCore(rt);
  }
}

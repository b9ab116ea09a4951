/** Admission of jobs: the guardian's filters (src/orchestration/guardian.py) and the payment
    requirements (src/chain/wallet_checker.py).  The filters are written as the source has them,
    with early returns and unguarded lookups, and proved equal to plain conditions. */
module Guardian {
  import opened Strings
  import opened ContainerLookup
  import JobStore
  import Orchestrator

  datatype Option<T> = None | Some(value: T)

  /** Addresses are in the lower-case form in which the source compares them. */
  datatype Restrictions = Restrictions(
    networks: seq<string>,
    allowedAddresses: seq<string>,
    allowedDelegates: seq<string>,
    isExternal: bool,
    generatesProofs: bool)

  /** The node's payment address, and the accepted tokens and prices of every container. */
  datatype WalletChecker = WalletChecker(paymentAddress: Option<string>, prices: map<string, map<string, nat>>)

  datatype Guard = Guard(restrictions: map<string, Restrictions>, checker: Option<WalletChecker>)

  datatype Created = Created(
    completed: bool, containers: seq<string>, owner: string, requiresProof: bool, token: string, amount: nat)

  datatype OffchainJob = OffchainJob(containers: seq<string>, ip: string, requiresProof: bool)

  /** A delegated subscription with the expiry of its signature, in seconds. */
  datatype Delegated = Delegated(expiry: int, containers: seq<string>, owner: string, requiresProof: bool)

  datatype Reason =
    | ChainDisabled | SignatureExpired | SubscriptionCompleted | NoContainers | NotSupported | NotExternal | NotAllowed | NoProof | InvalidPayment

  /** `Raised`: a lookup missed, or the wallet checker is not there. */
  datatype Verdict = Accepted | Rejected(reason: Reason) | Raised

  // -------------------------------------------------------------------------- the filters

  predicate AllowsAddress(r: Restrictions, address: string, onchain: bool) {
    var list := if onchain then r.allowedAddresses else r.allowedDelegates;
    list == [] || address in list
  }

  predicate AllowsIp(r: Restrictions, ip: string, inNetwork: (string, string) -> bool) {
    r.networks == [] || exists i :: 0 <= i < |r.networks| && inNetwork(ip, r.networks[i])
  }

  /** The loop that rejects at the first container whose owner list excludes the address. */
  function CheckAddresses(g: Guard, containers: seq<string>, address: string, onchain: bool): Verdict {
    if containers == [] then Accepted
    else if containers[0] !in g.restrictions then Raised
    else if !AllowsAddress(g.restrictions[containers[0]], address, onchain) then Rejected(NotAllowed)
    else CheckAddresses(g, containers[1..], address, onchain)
  }

  function CheckIps(g: Guard, containers: seq<string>, ip: string, inNetwork: (string, string) -> bool): Verdict {
    if containers == [] then Accepted
    else if containers[0] !in g.restrictions then Raised
    else if !AllowsIp(g.restrictions[containers[0]], ip, inNetwork) then Rejected(NotAllowed)
    else CheckIps(g, containers[1..], ip, inNetwork)
  }

  function CheckSupported(g: Guard, containers: seq<string>): Verdict {
    if containers == [] then Accepted
    else if containers[0] !in g.restrictions then Rejected(NotSupported)
    else CheckSupported(g, containers[1..])
  }

  /** The token loop of `matches_payment_requirements`: a container without prices takes all. */
  function CheckTokens(w: WalletChecker, containers: seq<string>, token: string): Verdict {
    if containers == [] then Accepted
    else if containers[0] !in w.prices then Raised
    else if w.prices[containers[0]] == map[] then CheckTokens(w, containers[1..], token)
    else if token !in w.prices[containers[0]] then Rejected(InvalidPayment)
    else CheckTokens(w, containers[1..], token)
  }

  function Price(w: WalletChecker, container: string, token: string): nat {
    if container in w.prices && token in w.prices[container] then w.prices[container][token] else 0
  }

  function MinPayment(w: WalletChecker, containers: seq<string>, token: string): nat {
    if containers == [] then 0 else Price(w, containers[0], token) + MinPayment(w, containers[1..], token)
  }

  /** `matches_payment_requirements` */
  function CheckPayment(w: WalletChecker, sub: Created): Verdict {
    if w.paymentAddress.None? && sub.amount > 0 then Rejected(InvalidPayment)
    else
      var tokens := CheckTokens(w, sub.containers, sub.token);
      if tokens != Accepted then tokens
      else if sub.amount < MinPayment(w, sub.containers, sub.token) then Rejected(InvalidPayment)
      else Accepted
  }

  /** `_process_coordinator_created_message` */
  function ProcessCreated(g: Guard, sub: Created): Verdict {
    if sub.completed then Rejected(SubscriptionCompleted)
    else if |sub.containers| == 0 then Rejected(NoContainers)
    else
      var first, last := sub.containers[0], sub.containers[|sub.containers| - 1];
      if first !in g.restrictions then Raised
      else if !g.restrictions[first].isExternal then Rejected(NotExternal)
      else
        var addresses := CheckAddresses(g, sub.containers, sub.owner, true);
        if addresses != Accepted then addresses
        else if sub.requiresProof && last !in g.restrictions then Raised
        else if sub.requiresProof && !g.restrictions[last].generatesProofs then Rejected(NoProof)
        else if g.checker.None? then Raised
        else CheckPayment(g.checker.value, sub)
  }

  /** `_process_delegated_subscription_message`: it reads the first container without asking
      whether there is one. */
  function ProcessDelegated(g: Guard, chain: bool, now: real, sub: Delegated): Verdict {
    if !chain then Rejected(ChainDisabled)
    else if sub.expiry < now.Floor then Rejected(SignatureExpired)
    else
      var supported := CheckSupported(g, sub.containers);
      if supported != Accepted then supported
      else if |sub.containers| == 0 then Raised
      else
        var first, last := sub.containers[0], sub.containers[|sub.containers| - 1];
        if first !in g.restrictions then Raised
        else if !g.restrictions[first].isExternal then Rejected(NotExternal)
        else if sub.requiresProof && last !in g.restrictions then Raised
        else if sub.requiresProof && !g.restrictions[last].generatesProofs then Rejected(NoProof)
        else CheckAddresses(g, sub.containers, sub.owner, false)
  }

  /** `_process_offchain_message` */
  function ProcessOffchain(g: Guard, job: OffchainJob, inNetwork: (string, string) -> bool): Verdict {
    if |job.containers| == 0 then Rejected(NoContainers)
    else
      var first, last := job.containers[0], job.containers[|job.containers| - 1];
      var supported := CheckSupported(g, job.containers);
      if supported != Accepted then supported
      else if first !in g.restrictions then Raised
      else if !g.restrictions[first].isExternal then Rejected(NotExternal)
      else if job.requiresProof && last !in g.restrictions then Raised
      else if job.requiresProof && !g.restrictions[last].generatesProofs then Rejected(NoProof)
      else CheckIps(g, job.containers, job.ip, inNetwork)
  }

  // ------------------------------------------------------------------ the plain conditions

  predicate Configured(g: Guard, containers: seq<string>) {
    forall i :: 0 <= i < |containers| ==> containers[i] in g.restrictions
  }

  predicate Priced(w: WalletChecker, containers: seq<string>) {
    forall i :: 0 <= i < |containers| ==> containers[i] in w.prices
  }

  /** Running sums of what the containers ask in this token: each starts with the one before it
      and adds the listed price, nothing for a container that lists none. */
  predicate Adds(w: WalletChecker, containers: seq<string>, token: string, sums: seq<nat>)
    requires Priced(w, containers)
  {
    |sums| == |containers| + 1 && sums[0] == 0
    && forall i :: 0 <= i < |containers| ==>
         var prices := w.prices[containers[i]];
         sums[i + 1] == sums[i] + if token in prices then prices[token] else 0
  }

  /** Every container with prices takes the token, and the amount covers all of them. */
  ghost predicate Pays(w: WalletChecker, sub: Created)
    requires Priced(w, sub.containers)
  {
    (w.paymentAddress.Some? || sub.amount == 0)
    && (forall i :: 0 <= i < |sub.containers| ==>
          w.prices[sub.containers[i]] == map[] || sub.token in w.prices[sub.containers[i]])
    && exists sums :: Adds(w, sub.containers, sub.token, sums) && sums[|sub.containers|] <= sub.amount
  }

  /** What does not concern the payment: the subscription is open and names containers, the first
      one external, each one open to the owner, and the last one a prover if it needs one. */
  ghost predicate Eligible(g: Guard, sub: Created)
    requires Configured(g, sub.containers)
  {
    !sub.completed && sub.containers != []
    && g.restrictions[sub.containers[0]].isExternal
    && OpenTo(g, sub.containers, sub.owner, true)
    && (sub.requiresProof ==> g.restrictions[sub.containers[|sub.containers| - 1]].generatesProofs)
  }

  ghost predicate Admissible(g: Guard, sub: Created)
    requires Configured(g, sub.containers)
    requires g.checker.Some? && Priced(g.checker.value, sub.containers)
  {
    Eligible(g, sub) && Pays(g.checker.value, sub)
  }

  /** Each container lists nobody, or the address: owners for a message from the chain, delegates
      for one that was delegated. */
  ghost predicate OpenTo(g: Guard, containers: seq<string>, address: string, onchain: bool)
    requires Configured(g, containers)
  {
    forall i :: 0 <= i < |containers| ==>
      var r := g.restrictions[containers[i]];
      (onchain ==> r.allowedAddresses == [] || address in r.allowedAddresses)
      && (!onchain ==> r.allowedDelegates == [] || address in r.allowedDelegates)
  }

  lemma {:induction false} AddressesExact(g: Guard, containers: seq<string>, address: string, onchain: bool)
    requires Configured(g, containers)
    ensures CheckAddresses(g, containers, address, onchain) != Raised
    ensures CheckAddresses(g, containers, address, onchain) == Accepted <==> OpenTo(g, containers, address, onchain)
  {
    if containers != [] {
      AddressesExact(g, containers[1..], address, onchain);
      assert forall i :: 0 < i < |containers| ==> containers[i] == containers[1..][i - 1];
    }
  }

  /** No network is listed, or the address lies in one of them. */
  ghost predicate FromNetwork(networks: seq<string>, ip: string, inNetwork: (string, string) -> bool) {
    networks == [] || exists network :: network in networks && inNetwork(ip, network)
  }

  lemma {:induction false} IpsExact(g: Guard, containers: seq<string>, ip: string, inNetwork: (string, string) -> bool)
    requires Configured(g, containers)
    ensures CheckIps(g, containers, ip, inNetwork) != Raised
    ensures CheckIps(g, containers, ip, inNetwork) == Accepted <==>
      forall i :: 0 <= i < |containers| ==> FromNetwork(g.restrictions[containers[i]].networks, ip, inNetwork)
  {
    if containers != [] {
      IpsExact(g, containers[1..], ip, inNetwork);
      assert forall i :: 0 < i < |containers| ==> containers[i] == containers[1..][i - 1];
    }
  }

  lemma {:induction false} SupportedExact(g: Guard, containers: seq<string>)
    ensures CheckSupported(g, containers) != Raised
    ensures CheckSupported(g, containers) == Accepted <==> Configured(g, containers)
  {
    if containers != [] {
      SupportedExact(g, containers[1..]);
      assert forall i :: 0 < i < |containers| ==> containers[i] == containers[1..][i - 1];
    }
  }

  lemma {:induction false} TokensExact(w: WalletChecker, containers: seq<string>, token: string)
    requires Priced(w, containers)
    ensures CheckTokens(w, containers, token) != Raised
    ensures CheckTokens(w, containers, token) == Accepted <==>
      forall i :: 0 <= i < |containers| ==> w.prices[containers[i]] == map[] || token in w.prices[containers[i]]
  {
    if containers != [] {
      TokensExact(w, containers[1..], token);
      assert forall i :: 0 < i < |containers| ==> containers[i] == containers[1..][i - 1];
    }
  }

  lemma {:induction false} SumsAre(w: WalletChecker, containers: seq<string>, token: string, sums: seq<nat>)
    requires Priced(w, containers) && Adds(w, containers, token, sums)
    ensures sums[|containers|] == MinPayment(w, containers, token)
    decreases |containers|
  {
    if containers != [] {
      var n := |containers| - 1;
      SumsAre(w, containers[..n], token, sums[..n + 1]);
      MinPaymentConcat(w, containers[..n], [containers[n]], token);
      assert containers[..n] + [containers[n]] == containers;
      assert MinPayment(w, [containers[n]], token) == Price(w, containers[n], token) by { assert [containers[n]][1..] == []; }
    }
  }

  lemma {:induction false} MinPaymentConcat(w: WalletChecker, a: seq<string>, b: seq<string>, token: string)
    ensures MinPayment(w, a + b, token) == MinPayment(w, a, token) + MinPayment(w, b, token)
  {
    if a == [] {
      assert a + b == b;
    } else {
      assert (a + b)[1..] == a[1..] + b;
      MinPaymentConcat(w, a[1..], b, token);
    }
  }

  lemma {:induction false} SumsExist(w: WalletChecker, containers: seq<string>, token: string) returns (sums: seq<nat>)
    requires Priced(w, containers)
    ensures Adds(w, containers, token, sums)
    decreases |containers|
  {
    if containers == [] { return [0]; }
    var n := |containers| - 1;
    var front := SumsExist(w, containers[..n], token);
    var prices := w.prices[containers[n]];
    sums := front + [front[n] + if token in prices then prices[token] else 0];
    assert forall i :: 0 <= i < n ==> containers[..n][i] == containers[i] && sums[i] == front[i];
  }

  /** The payment check accepts exactly the subscriptions that pay. */
  lemma {:induction false} PaymentExact(w: WalletChecker, sub: Created)
    requires Priced(w, sub.containers)
    ensures CheckPayment(w, sub) != Raised
    ensures CheckPayment(w, sub) == Accepted <==> Pays(w, sub)
  {
    TokensExact(w, sub.containers, sub.token);
    var sums := SumsExist(w, sub.containers, sub.token);
    SumsAre(w, sub.containers, sub.token, sums);
    forall other | Adds(w, sub.containers, sub.token, other) ensures other[|sub.containers|] == sums[|sub.containers|] {
      SumsAre(w, sub.containers, sub.token, other);
    }
  }

  /** The payment check asks exactly this amount for these containers in this token. */
  ghost predicate Asks(w: WalletChecker, containers: seq<string>, token: string, least: nat) {
    forall sub: Created :: sub.containers == containers && sub.token == token ==>
      (CheckPayment(w, sub) == Accepted <==> sub.amount >= least)
  }

  lemma {:induction false} AsksNothing(w: WalletChecker, token: string)
    requires w.paymentAddress.Some?
    ensures Asks(w, [], token, 0)
  {
  }

  lemma {:induction false} AsksPrice(w: WalletChecker, container: string, token: string)
    requires w.paymentAddress.Some? && container in w.prices
    requires w.prices[container] == map[] || token in w.prices[container]
    ensures Asks(w, [container], token, if w.prices[container] == map[] then 0 else w.prices[container][token])
  {
    assert [container][1..] == [];
    assert CheckTokens(w, [container][1..], token) == Accepted && MinPayment(w, [container][1..], token) == 0;
  }

  lemma {:induction false} TokensConcat(w: WalletChecker, a: seq<string>, b: seq<string>, token: string)
    ensures CheckTokens(w, a + b, token) == if CheckTokens(w, a, token) == Accepted then CheckTokens(w, b, token) else CheckTokens(w, a, token)
  {
    if a == [] {
      assert a + b == b;
    } else {
      assert (a + b)[1..] == a[1..] + b;
      TokensConcat(w, a[1..], b, token);
    }
  }

  /** What two lists of containers ask adds up. */
  lemma {:induction false} AsksSum(w: WalletChecker, a: seq<string>, b: seq<string>, token: string, m: nat, n: nat)
    requires w.paymentAddress.Some? && Asks(w, a, token, m) && Asks(w, b, token, n)
    ensures Asks(w, a + b, token, m + n)
  {
    AskedIsSum(w, a, token, m);
    AskedIsSum(w, b, token, n);
    TokensConcat(w, a, b, token);
    MinPaymentConcat(w, a, b, token);
  }

  lemma {:induction false} AskedIsSum(w: WalletChecker, containers: seq<string>, token: string, least: nat)
    requires w.paymentAddress.Some? && Asks(w, containers, token, least)
    ensures CheckTokens(w, containers, token) == Accepted && MinPayment(w, containers, token) == least
  {
    var asked := MinPayment(w, containers, token);
    assert CheckPayment(w, Created(false, containers, "", false, token, least)) == Accepted;
    assert CheckPayment(w, Created(false, containers, "", false, token, asked)) == Accepted;
  }

  /** An eligible subscription is accepted from the asked amount on, and never below it. */
  lemma {:induction false} AcceptedFromAmount(g: Guard, sub: Created, least: nat)
    requires Configured(g, sub.containers) && g.checker.Some? && Priced(g.checker.value, sub.containers)
    requires Asks(g.checker.value, sub.containers, sub.token, least)
    ensures ProcessCreated(g, sub) == Accepted <==> Eligible(g, sub) && sub.amount >= least
  {
    AddressesExact(g, sub.containers, sub.owner, true);
  }

  /** For a subscription whose containers are configured, the created-message filter never
      raises, and it accepts exactly the admissible ones. */
  lemma {:induction false} CreatedExact(g: Guard, sub: Created)
    requires Configured(g, sub.containers)
    requires g.checker.Some? && Priced(g.checker.value, sub.containers)
    ensures ProcessCreated(g, sub) != Raised
    ensures ProcessCreated(g, sub) == Accepted <==> Admissible(g, sub)
  {
    AddressesExact(g, sub.containers, sub.owner, true);
    PaymentExact(g.checker.value, sub);
  }

  /** The off-chain filter never raises, whatever the message names, and accepts exactly the
      jobs that name configured containers, start with an external one, come from an allowed
      address for each, and end with a prover when a proof is required. */
  lemma {:induction false} OffchainExact(g: Guard, job: OffchainJob, inNetwork: (string, string) -> bool)
    ensures ProcessOffchain(g, job, inNetwork) != Raised
    ensures ProcessOffchain(g, job, inNetwork) == Accepted <==>
      job.containers != [] && Configured(g, job.containers)
      && g.restrictions[job.containers[0]].isExternal
      && (job.requiresProof ==> g.restrictions[job.containers[|job.containers| - 1]].generatesProofs)
      && (forall i :: 0 <= i < |job.containers| ==>
            FromNetwork(g.restrictions[job.containers[i]].networks, job.ip, inNetwork))
  {
    SupportedExact(g, job.containers);
    if Configured(g, job.containers) { IpsExact(g, job.containers, job.ip, inNetwork); }
  }

  /** The delegated filter promises a check for an empty container list and does not make it: it
      raises exactly for one, once the chain is enabled and the signature is valid.  It accepts
      exactly the subscriptions that meet its other conditions. */
  lemma {:induction false} DelegatedExact(g: Guard, chain: bool, now: real, sub: Delegated)
    ensures ProcessDelegated(g, chain, now, sub) == Raised <==> chain && now.Floor <= sub.expiry && sub.containers == []
    ensures ProcessDelegated(g, chain, now, sub) == Accepted <==>
      chain && now.Floor <= sub.expiry && sub.containers != [] && Configured(g, sub.containers)
      && g.restrictions[sub.containers[0]].isExternal
      && (sub.requiresProof ==> g.restrictions[sub.containers[|sub.containers| - 1]].generatesProofs)
      && OpenTo(g, sub.containers, sub.owner, false)
  {
    SupportedExact(g, sub.containers);
    if Configured(g, sub.containers) { AddressesExact(g, sub.containers, sub.owner, false); }
  }

  /** The reasons that only concern the containers hold of these containers. */
  ghost predicate Applies(g: Guard, reason: Reason, containers: seq<string>, requiresProof: bool) {
    match reason
    case NoContainers => containers == []
    case NotSupported => !Configured(g, containers)
    case NotExternal =>
      containers != [] && containers[0] in g.restrictions && !g.restrictions[containers[0]].isExternal
    case NoProof =>
      requiresProof && containers != []
      && var last := containers[|containers| - 1]; last in g.restrictions && !g.restrictions[last].generatesProofs
    case _ => false
  }

  /** A rejected subscription has the fault the rejection names. */
  lemma {:induction false} CreatedRejectedForCause(g: Guard, sub: Created)
    requires Configured(g, sub.containers)
    requires g.checker.Some? && Priced(g.checker.value, sub.containers)
    requires ProcessCreated(g, sub).Rejected?
    ensures var reason := ProcessCreated(g, sub).reason;
      Applies(g, reason, sub.containers, sub.requiresProof)
      || (reason == SubscriptionCompleted && sub.completed)
      || (reason == NotAllowed && !OpenTo(g, sub.containers, sub.owner, true))
      || (reason == InvalidPayment && !Pays(g.checker.value, sub))
  {
    AddressesReason(g, sub.containers, sub.owner, true);
    AddressesExact(g, sub.containers, sub.owner, true);
    PaymentReason(g.checker.value, sub);
    PaymentExact(g.checker.value, sub);
  }

  lemma {:induction false} DelegatedRejectedForCause(g: Guard, chain: bool, now: real, sub: Delegated)
    requires ProcessDelegated(g, chain, now, sub).Rejected?
    ensures var reason := ProcessDelegated(g, chain, now, sub).reason;
      Applies(g, reason, sub.containers, sub.requiresProof)
      || (reason == ChainDisabled && !chain)
      || (reason == SignatureExpired && sub.expiry < now.Floor)
      || (reason == NotAllowed && Configured(g, sub.containers) && !OpenTo(g, sub.containers, sub.owner, false))
  {
    SupportedExact(g, sub.containers);
    if Configured(g, sub.containers) {
      AddressesReason(g, sub.containers, sub.owner, false);
      AddressesExact(g, sub.containers, sub.owner, false);
    } else {
      SupportedReason(g, sub.containers);
    }
  }

  lemma {:induction false} OffchainRejectedForCause(g: Guard, job: OffchainJob, inNetwork: (string, string) -> bool)
    requires ProcessOffchain(g, job, inNetwork).Rejected?
    ensures var reason := ProcessOffchain(g, job, inNetwork).reason;
      Applies(g, reason, job.containers, job.requiresProof)
      || (reason == NotAllowed && Configured(g, job.containers)
          && exists i :: 0 <= i < |job.containers| && !FromNetwork(g.restrictions[job.containers[i]].networks, job.ip, inNetwork))
  {
    SupportedExact(g, job.containers);
    if Configured(g, job.containers) {
      IpsReason(g, job.containers, job.ip, inNetwork);
      IpsExact(g, job.containers, job.ip, inNetwork);
    } else {
      SupportedReason(g, job.containers);
    }
  }

  lemma {:induction false} AddressesReason(g: Guard, containers: seq<string>, address: string, onchain: bool)
    ensures var v := CheckAddresses(g, containers, address, onchain); v.Rejected? ==> v.reason == NotAllowed
  {
    if containers != [] { AddressesReason(g, containers[1..], address, onchain); }
  }

  lemma {:induction false} IpsReason(g: Guard, containers: seq<string>, ip: string, inNetwork: (string, string) -> bool)
    ensures var v := CheckIps(g, containers, ip, inNetwork); v.Rejected? ==> v.reason == NotAllowed
  {
    if containers != [] { IpsReason(g, containers[1..], ip, inNetwork); }
  }

  lemma {:induction false} SupportedReason(g: Guard, containers: seq<string>)
    ensures var v := CheckSupported(g, containers); v.Rejected? ==> v.reason == NotSupported
  {
    if containers != [] { SupportedReason(g, containers[1..]); }
  }

  lemma {:induction false} PaymentReason(w: WalletChecker, sub: Created)
    ensures var v := CheckPayment(w, sub); v.Rejected? ==> v.reason == InvalidPayment
  {
    TokensReason(w, sub.containers, sub.token);
  }

  lemma {:induction false} TokensReason(w: WalletChecker, containers: seq<string>, token: string)
    ensures var v := CheckTokens(w, containers, token); v.Rejected? ==> v.reason == InvalidPayment
  {
    if containers != [] { TokensReason(w, containers[1..], token); }
  }

  // ------------------------------------------------------------ what admission guarantees

  /** The guardian, the wallet checker and the container manager are built from one list of
      container configurations. */
  ghost predicate OneConfiguration(ids: seq<string>, g: Guard, ports: map<string, int>) {
    (forall id :: id in ids ==> id in g.restrictions && id in ports)
    && g.checker.Some? && forall id :: id in ids ==> id in g.checker.value.prices
  }

  /** A created subscription is named by a container hash.  Whatever the hash, filtering it
      never raises; and once accepted, it is admissible, and the later price and port lookups
      for its containers find their key. */
  lemma {:induction false} AdmissionIsTotal<H(!new)>(
    hash: string -> H, ids: seq<string>, h: H, g: Guard, ports: map<string, int>, sub: Created)
    requires ContainerLookup.Configured(ids) && Injective(hash) && OneConfiguration(ids, g, ports)
    requires sub.containers == GetContainers(Table(hash, AllStrings(ids)), h)
    ensures ProcessCreated(g, sub) != Raised
    ensures Configured(g, sub.containers) && Priced(g.checker.value, sub.containers)
    ensures ProcessCreated(g, sub) == Accepted <==> Admissible(g, sub)
    ensures Orchestrator.HasPorts(ports, sub.containers)
  {
    LookupIsConfigured(hash, ids, h);
    forall k | 0 <= k < |sub.containers| ensures sub.containers[k] in ids {
      assert sub.containers[k] in sub.containers;
    }
    CreatedExact(g, sub);
  }

  /** So a delegated subscription raises in the filter exactly when its container hash is that of no
      choice of configured containers. */
  lemma {:induction false} UnknownHashRaises<H(!new)>(
    hash: string -> H, ids: seq<string>, h: H, g: Guard, now: real, sub: Delegated)
    requires ContainerLookup.Configured(ids) && Injective(hash) && now.Floor <= sub.expiry
    requires sub.containers == GetContainers(Table(hash, AllStrings(ids)), h)
    ensures ProcessDelegated(g, true, now, sub) == Raised <==> forall p :: Choice(ids, p) ==> h != hash(Join(p, ','))
  {
    LookupExact(hash, ids, h);
    LookupIsConfigured(hash, ids, h);
    DelegatedExact(g, true, now, sub);
  }

  /** The containers of some subscription that the guardian accepted. */
  ghost predicate Admitted<H(!new)>(hash: string -> H, ids: seq<string>, g: Guard, containers: seq<string>) {
    exists h: H, sub: Created ::
      sub.containers == GetContainers(Table(hash, AllStrings(ids)), h) && ProcessCreated(g, sub) == Accepted
      && containers == sub.containers
  }

  /** When every on-chain job of a history runs the containers of an admitted subscription, no
      on-chain job is ever lost: the pending counter is the number of on-chain jobs in flight. */
  lemma {:induction false} AdmittedJobsAreCounted<H(!new)>(
    hash: string -> H, ids: seq<string>, g: Guard, ports: map<string, int>,
    completed: map<string, JobStore.JobResult>, es: seq<Orchestrator.Event>, l: Orchestrator.Ledger)
    requires ContainerLookup.Configured(ids) && Injective(hash) && OneConfiguration(ids, g, ports)
    requires Orchestrator.History(ports, Orchestrator.Opened(completed), es)
    requires l == Orchestrator.Outcome(ports, Orchestrator.Opened(completed), es)
    requires forall i :: 0 <= i < |es| && es[i].Starts? && es[i].message.None? ==> Admitted(hash, ids, g, es[i].containers)
    ensures l.store.onchainPending == |Orchestrator.OnChainJobs(l.flying)|
  {
    forall i | 0 <= i < |es| && es[i].Starts? && es[i].message.None? ensures Orchestrator.HasPorts(ports, es[i].containers) {
      assert Admitted(hash, ids, g, es[i].containers);
      var h: H, sub: Created :|
        sub.containers == GetContainers(Table(hash, AllStrings(ids)), h) && ProcessCreated(g, sub) == Accepted
        && es[i].containers == sub.containers;
      AdmissionIsTotal(hash, ids, h, g, ports, sub);
    }
    Orchestrator.PendingIsInFlight(ports, completed, es, l);
  }
}

/**
 * The three dispatchers of example.py: each switches on a flag string and
 * makes one call on its binding object, or raises ValueError.
 */
module Dispatchers {
  import opened Wrappers
  import opened PyValues
  import opened Calls

  /** The one flag whose arguments are completed with the port list. */
  const OsGuessWithPorts: string := "-O --osscan-guess -p "

  /** A dispatcher result whose call went to a method of `b` that answers to the flag. */
  predicate RoutedBy(b: Binding, scanType: Option<string>, r: Result<Outcome, ScanError>)
    requires r.Success?
  {
    scanType.Some? && Owner(r.value.call.op) == b
    && scanType.value in FlagsFor(r.value.call.op)
  }

  /** `scan_techniques(nmt, scan_type, target)` */
  function ScanTechniques(scanType: Option<string>, target: PyValue): (r: Result<Outcome, ScanError>)
    ensures r.Success? ==> r.value.call.subject == target && r.value.call.args == None
    ensures r.Success? ==> (r.value.Discarded? <==> r.value.call.op == IdleScan)
  {
    if scanType == Some("-sF") then Success(Returned(Call(FinScan, target, None)))
    else if scanType == Some("-sI") then Success(Discarded(Call(IdleScan, target, None)))
    else if scanType == Some("-sP") then Success(Returned(Call(PingScan, target, None)))
    else if scanType == Some("-sS") then Success(Returned(Call(SynScan, target, None)))
    else if scanType == Some("-F") then Success(Returned(Call(SynScan, target, None)))
    else if scanType == Some("-sT") then Success(Returned(Call(TcpScan, target, None)))
    else if scanType == Some("-sU") then Success(Returned(Call(UdpScan, target, None)))
    else Failure(NotAScanTechnique)
  }

  /** `scan_discovery(nmd, scan_type, target, ports_num)` */
  function ScanDiscovery(scanType: Option<string>, target: PyValue, portsNum: PyValue): (r: Result<Outcome, ScanError>)
    ensures r.Success? ==> r.value.Returned? && r.value.call.subject == target
    ensures r.Success? ==> (r.value.call.args.Some? <==> r.value.call.op == PortscanOnly && scanType != Some("-Pn"))
    ensures r.Success? && r.value.call.args.Some? ==>
      scanType.Some? && r.value.call.args.value == scanType.value + (if scanType.value == OsGuessWithPorts then Str(portsNum) else "")
  {
    if scanType == Some("-Pn") then Success(Returned(Call(PortscanOnly, target, None)))
    else if scanType == Some("-sn") then Success(Returned(Call(NoPortscan, target, None)))
    else if scanType == Some("-PR") then Success(Returned(Call(NoPortscan, target, None)))
    else if scanType == Some("-n") then Success(Returned(Call(DisableDns, target, None)))
    else if scanType == Some("-O --osscan-guess") then Success(Returned(Call(PortscanOnly, target, scanType)))
    else if scanType == Some("-A -T2") then Success(Returned(Call(PortscanOnly, target, scanType)))
    else if scanType == Some("-A") then Success(Returned(Call(PortscanOnly, target, scanType)))
    else if scanType == Some("-A -v") then Success(Returned(Call(PortscanOnly, target, scanType)))
    else if scanType == Some("-T4 -sV") then Success(Returned(Call(PortscanOnly, target, scanType)))
    else if scanType == Some("-n -A") then Success(Returned(Call(PortscanOnly, target, scanType)))
    else if scanType == Some("-n -V") then Success(Returned(Call(PortscanOnly, target, scanType)))
    else if scanType == Some("-f -A") then Success(Returned(Call(PortscanOnly, target, scanType)))
    else if scanType == Some("-n -sV --version-intensity 3") then Success(Returned(Call(PortscanOnly, target, scanType)))
    else if scanType == Some(OsGuessWithPorts) then
      // the flag is rebound to itself followed by `str(ports_num)`
      Success(Returned(Call(PortscanOnly, target, Some(OsGuessWithPorts + Str(portsNum)))))
    else Failure(NotAScanTechnique)
  }

  /** `scan_command(nm, scan_type, target, domain)` */
  function ScanCommand(scanType: Option<string>, target: PyValue, domain: PyValue): (r: Result<Outcome, ScanError>)
    ensures r.Success? ==> r.value.Returned?
    ensures r.Success? ==> r.value.call.subject == (if r.value.call.op == DnsBruteScript then domain else target)
    ensures r.Success? ==> (r.value.call.args.Some? <==> scanType == Some("-sX"))
    ensures r.Success? && r.value.call.args.Some? ==> r.value.call.args == scanType
  {
    if scanType == Some("-sA") then Success(Returned(Call(DetectFirewall, target, None)))
    else if scanType == Some("-O") then Success(Returned(Call(OsDetection, target, None)))
    else if scanType == Some("--top-ports") then Success(Returned(Call(TopPorts, target, None)))
    else if scanType == Some("20 -sZ") then Success(Returned(Call(TopPorts, target, None)))
    else if scanType == Some("-script dns-brute") then Success(Returned(Call(DnsBruteScript, domain, None)))
    else if scanType == Some("-sL") then Success(Returned(Call(ListScan, target, None)))
    else if scanType == Some("-p-") then Success(Returned(Call(SubnetScan, target, None)))
    else if scanType == Some("-sV") then Success(Returned(Call(VersionDetection, target, None)))
    else if scanType == Some("-sX") then Success(Returned(Call(VersionDetection, target, scanType)))
    else Failure(NotAScanTechnique)
  }

  /**
   * The dispatcher that talks to binding object `b`; `extra` is the fourth
   * argument (`ports_num` for discovery, `domain` for commands).
   */
  function Dispatch(b: Binding, scanType: Option<string>, target: PyValue, extra: PyValue): (r: Result<Outcome, ScanError>)
    ensures r.Success? ==> Owner(r.value.call.op) == b
  {
    match b
    case NmapScanTechniques => ScanTechniques(scanType, target)
    case NmapHostDiscovery => ScanDiscovery(scanType, target, extra)
    case Nmap => ScanCommand(scanType, target, extra)
  }

  /**
   * `scan_techniques` raises exactly for flags (or `None`) outside the flag sets
   * of the NmapScanTechniques methods; otherwise it calls a method whose set
   * holds the flag.
   */
  lemma ScanTechniquesRouting(scanType: Option<string>, target: PyValue)
    ensures var r := ScanTechniques(scanType, target);
      (r.Failure? <==> !Accepts(NmapScanTechniques, scanType))
      && (r.Success? ==> RoutedBy(NmapScanTechniques, scanType, r))
  {
  }

  /** The same for `scan_discovery` and the NmapHostDiscovery methods. */
  lemma ScanDiscoveryRouting(scanType: Option<string>, target: PyValue, portsNum: PyValue)
    ensures var r := ScanDiscovery(scanType, target, portsNum);
      (r.Failure? <==> !Accepts(NmapHostDiscovery, scanType))
      && (r.Success? ==> RoutedBy(NmapHostDiscovery, scanType, r))
  {
    var r := ScanDiscovery(scanType, target, portsNum);
    if Accepts(NmapHostDiscovery, scanType) {
      ScanDiscoveryAccepted(scanType, target, portsNum);
    }
    if r.Success? {
      ScanDiscoveryRoutes(scanType, target, portsNum);
      OwnerAcceptsItsFlags(r.value.call.op, scanType.value);
    }
  }

  /** One half of ScanDiscoveryRouting: an accepted flag does not raise. */
  lemma ScanDiscoveryAccepted(scanType: Option<string>, target: PyValue, portsNum: PyValue)
    requires Accepts(NmapHostDiscovery, scanType)
    ensures ScanDiscovery(scanType, target, portsNum).Success?
  {
  }

  /** The other half: a call that did not raise went to a method listing the flag. */
  lemma ScanDiscoveryRoutes(scanType: Option<string>, target: PyValue, portsNum: PyValue)
    requires ScanDiscovery(scanType, target, portsNum).Success?
    ensures RoutedBy(NmapHostDiscovery, scanType, ScanDiscovery(scanType, target, portsNum))
  {
  }

  /** The same for `scan_command` and the Nmap methods. */
  lemma ScanCommandRouting(scanType: Option<string>, target: PyValue, domain: PyValue)
    ensures var r := ScanCommand(scanType, target, domain);
      (r.Failure? <==> !Accepts(Nmap, scanType))
      && (r.Success? ==> RoutedBy(Nmap, scanType, r))
  {
    var r := ScanCommand(scanType, target, domain);
    if Accepts(Nmap, scanType) {
      ScanCommandAccepted(scanType, target, domain);
    }
    if r.Success? {
      ScanCommandRoutes(scanType, target, domain);
      OwnerAcceptsItsFlags(r.value.call.op, scanType.value);
    }
  }

  /** One half of ScanCommandRouting: an accepted flag does not raise. */
  lemma ScanCommandAccepted(scanType: Option<string>, target: PyValue, domain: PyValue)
    requires Accepts(Nmap, scanType)
    ensures ScanCommand(scanType, target, domain).Success?
  {
  }

  /** The other half: a call that did not raise went to a method listing the flag. */
  lemma ScanCommandRoutes(scanType: Option<string>, target: PyValue, domain: PyValue)
    requires ScanCommand(scanType, target, domain).Success?
    ensures RoutedBy(Nmap, scanType, ScanCommand(scanType, target, domain))
  {
  }

  /** A flag listed for a method is accepted by that method's binding object. */
  lemma OwnerAcceptsItsFlags(m: Method, f: string)
    requires f in FlagsFor(m)
    ensures Accepts(Owner(m), Some(f))
  {
  }

  /** Any dispatcher fails exactly on the flags its binding object does not accept. */
  lemma DispatchRouting(b: Binding, scanType: Option<string>, target: PyValue, extra: PyValue)
    ensures var r := Dispatch(b, scanType, target, extra);
      (r.Failure? <==> !Accepts(b, scanType))
      && (r.Success? ==> RoutedBy(b, scanType, r))
  {
    match b
    case NmapScanTechniques => ScanTechniquesRouting(scanType, target);
    case NmapHostDiscovery => ScanDiscoveryRouting(scanType, target, extra);
    case Nmap => ScanCommandRouting(scanType, target, extra);
  }

  /**
   * The converse of RoutedBy: every flag listed for a method is routed, by the
   * dispatcher of that method's binding object, to that very method.
   */
  lemma FlagReachesItsMethod(m: Method, f: string, target: PyValue, extra: PyValue)
    requires f in FlagsFor(m)
    ensures Dispatch(Owner(m), Some(f), target, extra).Success?
    ensures Dispatch(Owner(m), Some(f), target, extra).value.call.op == m
  {
    match Owner(m)
    case NmapScanTechniques => TechniqueFlagReachesItsMethod(m, f, target);
    case NmapHostDiscovery => DiscoveryFlagReachesItsMethod(m, f, target, extra);
    case Nmap => CommandFlagReachesItsMethod(m, f, target, extra);
  }

  lemma TechniqueFlagReachesItsMethod(m: Method, f: string, target: PyValue)
    requires f in FlagsFor(m) && Owner(m) == NmapScanTechniques
    ensures ScanTechniques(Some(f), target).Success?
    ensures ScanTechniques(Some(f), target).value.call.op == m
  {
  }

  lemma DiscoveryFlagReachesItsMethod(m: Method, f: string, target: PyValue, portsNum: PyValue)
    requires f in FlagsFor(m) && Owner(m) == NmapHostDiscovery
    ensures ScanDiscovery(Some(f), target, portsNum).Success?
    ensures ScanDiscovery(Some(f), target, portsNum).value.call.op == m
  {
  }

  lemma CommandFlagReachesItsMethod(m: Method, f: string, target: PyValue, domain: PyValue)
    requires f in FlagsFor(m) && Owner(m) == Nmap
    ensures ScanCommand(Some(f), target, domain).Success?
    ensures ScanCommand(Some(f), target, domain).value.call.op == m
  {
  }

  /** A flag routes to method `m` exactly when the inverse table lists it for `m`. */
  lemma RoutesIff(b: Binding, m: Method, f: string, target: PyValue, extra: PyValue)
    ensures (var r := Dispatch(b, Some(f), target, extra); r.Success? && r.value.call.op == m)
        <==> Owner(m) == b && f in FlagsFor(m)
  {
    DispatchRouting(b, Some(f), target, extra);
    if Owner(m) == b && f in FlagsFor(m) {
      FlagReachesItsMethod(m, f, target, extra);
    }
  }

  /** `-F` (fast scan) and `-sS` are aliases: the same SYN-scan call. */
  lemma FastScanIsSynScan(target: PyValue)
    ensures ScanTechniques(Some("-F"), target) == ScanTechniques(Some("-sS"), target)
    ensures ScanTechniques(Some("-F"), target) == Success(Returned(Call(SynScan, target, None)))
  {
  }

  /** `-sn` and `-PR` are aliases: the same no-portscan call. */
  lemma ArpScanIsNoPortscan(target: PyValue, portsNum: PyValue)
    ensures ScanDiscovery(Some("-PR"), target, portsNum) == ScanDiscovery(Some("-sn"), target, portsNum)
    ensures ScanDiscovery(Some("-sn"), target, portsNum) == Success(Returned(Call(NoPortscan, target, None)))
  {
  }

  /** `--top-ports` and `20 -sZ` are aliases: the same top-ports call. */
  lemma SctpTopPortsIsTopPorts(target: PyValue, domain: PyValue)
    ensures ScanCommand(Some("20 -sZ"), target, domain) == ScanCommand(Some("--top-ports"), target, domain)
    ensures ScanCommand(Some("--top-ports"), target, domain) == Success(Returned(Call(TopPorts, target, None)))
  {
  }

  /** The idle scan is performed, but the dispatcher hands back nothing. */
  lemma IdleScanReturnsNothing(target: PyValue)
    ensures ScanTechniques(Some("-sI"), target) == Success(Discarded(Call(IdleScan, target, None)))
  {
  }

  /**
   * `-Pn` calls the port-scan-only method with no arguments; every other flag
   * that reaches that method is passed as its `args`, the port-selection flag
   * with `str(ports_num)` appended.
   */
  lemma PortscanOnlyArgs(f: string, target: PyValue, portsNum: PyValue)
    requires f in FlagsFor(PortscanOnly)
    ensures ScanDiscovery(Some(f), target, portsNum) ==
      Success(Returned(Call(PortscanOnly, target,
        if f == "-Pn" then None
        else if f == OsGuessWithPorts then Some(OsGuessWithPorts + Str(portsNum))
        else Some(f))))
  {
    FlagReachesItsMethod(PortscanOnly, f, target, portsNum);
  }

  /** `-sV` calls version detection without arguments, `-sX` with `args='-sX'`. */
  lemma XmasIsVersionDetectionWithArgs(target: PyValue, domain: PyValue)
    ensures ScanCommand(Some("-sV"), target, domain) == Success(Returned(Call(VersionDetection, target, None)))
    ensures ScanCommand(Some("-sX"), target, domain) == Success(Returned(Call(VersionDetection, target, Some("-sX"))))
  {
  }

  /** The DNS brute-force script is run on `domain`; `target` plays no part. */
  lemma DnsBruteUsesDomain(target1: PyValue, target2: PyValue, domain: PyValue)
    ensures ScanCommand(Some("-script dns-brute"), target1, domain) == ScanCommand(Some("-script dns-brute"), target2, domain)
    ensures ScanCommand(Some("-script dns-brute"), target1, domain) == Success(Returned(Call(DnsBruteScript, domain, None)))
  {
  }
}

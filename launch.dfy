/**
 * The entry routine `launch(target, domain, ports, templates)`: the template
 * table `tpl`, the choice of dispatcher and template id, and the call made.
 * The printing of the result is not modelled.
 */
module Launch {
  import opened Wrappers
  import opened PyValues
  import opened Calls
  import opened Dispatchers

  /**
   * `tpl(i)`: the template table, template id to nmap flag string, read with
   * `template.get(i)`; ids outside the table give `None`.
   */
  function Tpl(i: int): (r: Option<string>)
    ensures r.Some? <==> 1 <= i <= 30
  {
    match i
    // scan techniques
    case 1 => Some("-sF")
    case 2 => Some("-sI")
    case 3 => Some("-sS")
    case 4 => Some("-sP")
    case 5 => Some("-sT")
    case 6 => Some("-sU")
    case 7 => Some("-F")
    // host discovery
    case 8 => Some("-Pn")
    case 9 => Some("-sn")
    case 10 => Some("-PR")
    case 11 => Some("-n")
    case 12 => Some("-O --osscan-guess")
    case 13 => Some("-A")
    case 14 => Some("-A -T2")
    case 15 => Some("-A -v")
    case 16 => Some("-n -A")
    case 17 => Some("-f -A")
    case 18 => Some("-T4 -sV")
    case 19 => Some("-n -sV --version-intensity 3")
    case 20 => Some("-n -V")
    case 21 => Some("-O --osscan-guess -p ")
    // scan commands
    case 22 => Some("-sX")
    case 23 => Some("-sA")
    case 24 => Some("-O")
    case 25 => Some("20 -sZ")
    case 26 => Some("--top-ports")
    case 27 => Some("-script dns-brute")
    case 28 => Some("-sL")
    case 29 => Some("-p-")
    case 30 => Some("-sV")
    case _ => None
  }

  /** Python truthiness of `templates`: `None` and `0` are false. */
  predicate TemplatesTruthy(templates: Option<int>)
    ensures TemplatesTruthy(templates) <==> Truthy(if templates.None? then PNone else PInt(templates.value))
  {
    templates.Some? && templates.value != 0
  }

  /**
   * The dispatcher the template path picks for an id: `templates <= 7` goes to
   * the scan techniques, `templates in range(8, 22)` to host discovery, any
   * other id to the scan commands.
   */
  function Partition(i: int): (b: Binding)
    ensures b == NmapScanTechniques <==> i <= 7
    ensures b == NmapHostDiscovery <==> 8 <= i <= 21
    ensures b == Nmap <==> i >= 22
  {
    if i <= 7 then NmapScanTechniques
    else if 8 <= i < 22 then NmapHostDiscovery
    else Nmap
  }

  /**
   * What `launch` decided to do: which dispatcher, which template id, and the
   * target and fourth argument it passes.
   */
  datatype Plan = Plan(dispatcher: Binding, template: int, target: PyValue, extra: PyValue)

  /** The mode selection of `launch`. */
  function Select(target: PyValue, domain: PyValue, ports: PyValue, templates: Option<int>): (p: Plan)
    ensures p.dispatcher == Partition(p.template)
    ensures p.template == 21 || p.template == 27 || p.template == 3
         || (TemplatesTruthy(templates) && p.template == templates.value)
    ensures !(TemplatesTruthy(templates) && !Truthy(domain) && !Truthy(ports)) ==> 1 <= p.template <= 30
    ensures p.extra == (if p.template == 21 && Truthy(ports) then ports
                        else if p.template == 27 && Truthy(domain) && !Truthy(ports) then domain
                        else PNone)
  {
    if TemplatesTruthy(templates) || Truthy(domain) then
      if Truthy(ports) then Plan(NmapHostDiscovery, 21, target, ports)
      else if Truthy(domain) then Plan(Nmap, 27, PNone, domain)
      else
        var i := templates.value;
        Plan(Partition(i), i, target, PNone)
    else Plan(NmapScanTechniques, 3, target, PNone)
  }

  /** Carry out a plan: look the flag up and hand it to the chosen dispatcher. */
  function Run(p: Plan): Result<Outcome, ScanError>
  {
    Dispatch(p.dispatcher, Tpl(p.template), p.target, p.extra)
  }

  /**
   * Every id reaches, through the partition, a dispatcher that accepts its
   * flag exactly when it is in 1..30: ids 1..7 are scan techniques, 8..21
   * host discovery, 22..30 scan commands; a negative id falls to the scan
   * techniques and an id of 31 or more to the scan commands, and both raise.
   */
  lemma PartitionAcceptsTable(i: int)
    ensures Accepts(Partition(i), Tpl(i)) <==> 1 <= i <= 30
  {
    if 1 <= i <= 7 {
      TechniqueIdsAccepted(i);
    } else if 8 <= i <= 21 {
      DiscoveryIdsAccepted(i);
    } else if 22 <= i <= 30 {
      CommandIdsAccepted(i);
    }
  }

  lemma TechniqueIdsAccepted(i: int)
    requires 1 <= i <= 7
    ensures Accepts(NmapScanTechniques, Tpl(i))
  {
    if i == 1 {} else if i == 2 {} else if i == 3 {} else if i == 4 {}
    else if i == 5 {} else if i == 6 {} else {}
  }

  lemma DiscoveryIdsAccepted(i: int)
    requires 8 <= i <= 21
    ensures Accepts(NmapHostDiscovery, Tpl(i))
  {
    if i == 8 {} else if i == 9 {} else if i == 10 {} else if i == 11 {}
    else if i == 12 {} else if i == 13 {} else if i == 14 {} else if i == 15 {}
    else if i == 16 {} else if i == 17 {} else if i == 18 {} else if i == 19 {}
    else if i == 20 {} else {}
  }

  lemma CommandIdsAccepted(i: int)
    requires 22 <= i <= 30
    ensures Accepts(Nmap, Tpl(i))
  {
    if i == 22 {} else if i == 23 {} else if i == 24 {} else if i == 25 {}
    else if i == 26 {} else if i == 27 {} else if i == 28 {} else if i == 29 {}
    else {}
  }

  /**
   * `launch(target, domain, ports, templates)`: raises ValueError exactly when
   * the template path is taken with an id outside 1..30.
   */
  function LaunchScan(target: PyValue, domain: PyValue, ports: PyValue, templates: Option<int>): (r: Result<Outcome, ScanError>)
    ensures r.Failure? <==>
      TemplatesTruthy(templates) && !Truthy(domain) && !Truthy(ports) && !(1 <= templates.value <= 30)
  {
    var p := Select(target, domain, ports, templates);
    PartitionAcceptsTable(p.template);
    DispatchRouting(p.dispatcher, Tpl(p.template), p.target, p.extra);
    Run(p)
  }

  /* ---------- precedence of ports, domain and template ---------- */

  /**
   * Once a template or a domain is set, a truthy `ports` wins: the
   * port-selection OS scan (template 21) runs on the target with
   * `str(ports)` appended, whatever the template and domain were.
   */
  lemma PortsWinWhenTemplateOrDomainSet(target: PyValue, domain: PyValue, ports: PyValue, templates: Option<int>)
    requires TemplatesTruthy(templates) || Truthy(domain)
    requires Truthy(ports)
    ensures LaunchScan(target, domain, ports, templates) == LaunchScan(target, PNone, ports, Some(21))
    ensures LaunchScan(target, domain, ports, templates)
         == Success(Returned(Call(PortscanOnly, target, Some(OsGuessWithPorts + Str(ports)))))
  {
  }

  /**
   * Without a template or a domain, `ports` is ignored and the default
   * template 3 (a TCP SYN scan of the target) runs.
   */
  lemma PortsIgnoredWithoutTemplateOrDomain(target: PyValue, domain: PyValue, ports: PyValue, templates: Option<int>)
    requires !TemplatesTruthy(templates) && !Truthy(domain)
    ensures LaunchScan(target, domain, ports, templates) == LaunchScan(target, domain, PNone, templates)
    ensures LaunchScan(target, domain, ports, templates) == Success(Returned(Call(SynScan, target, None)))
  {
  }

  /**
   * A truthy domain without ports runs the DNS brute-force script on the
   * domain; the target and the template play no part.
   */
  lemma DomainOverridesTemplate(target: PyValue, domain: PyValue, ports: PyValue, templates: Option<int>)
    requires Truthy(domain) && !Truthy(ports)
    ensures LaunchScan(target, domain, ports, templates) == LaunchScan(PNone, domain, PNone, None)
    ensures LaunchScan(target, domain, ports, templates) == Success(Returned(Call(DnsBruteScript, domain, None)))
  {
  }

  /** `templates == 0` is falsy, so it behaves exactly like no template at all. */
  lemma TemplateZeroIsNoTemplate(target: PyValue, domain: PyValue, ports: PyValue)
    ensures LaunchScan(target, domain, ports, Some(0)) == LaunchScan(target, domain, ports, None)
  {
  }

  /**
   * With neither domain nor ports, no template means template 3; with ports
   * the two differ, because ports only count when a template is set.
   */
  lemma DefaultIsTemplate3(target: PyValue, domain: PyValue, ports: PyValue)
    requires !Truthy(domain)
    ensures !Truthy(ports) ==> LaunchScan(target, domain, ports, None) == LaunchScan(target, domain, ports, Some(3))
    ensures Truthy(ports) ==> LaunchScan(target, domain, ports, None) != LaunchScan(target, domain, ports, Some(3))
  {
  }

  /** ports=80, no domain, template 5: the discovery path, not the TCP connect scan. */
  lemma PortsAndTemplate5SelectDiscovery(target: PyValue)
    ensures Select(target, PNone, PInt(80), Some(5)).dispatcher == NmapHostDiscovery
    ensures LaunchScan(target, PNone, PInt(80), Some(5))
         == Success(Returned(Call(PortscanOnly, target, Some("-O --osscan-guess -p 80"))))
  {
    assert NatToDecimal(80) == "80";
    assert OsGuessWithPorts + "80" == "-O --osscan-guess -p 80";
  }

  /**
   * On the ports path with an integer port, the arguments are the
   * port-selection flag followed by the decimal port number, which reads
   * back as that number.
   */
  lemma PortsPathArgsCarryPort(target: PyValue, domain: PyValue, port: nat, templates: Option<int>)
    requires TemplatesTruthy(templates) || Truthy(domain)
    requires port != 0
    ensures var r := LaunchScan(target, domain, PInt(port), templates);
      r.Success? && r.value.call.args.Some?
      && |r.value.call.args.value| > |OsGuessWithPorts|
      && r.value.call.args.value[..|OsGuessWithPorts|] == OsGuessWithPorts
      && AllDigits(r.value.call.args.value[|OsGuessWithPorts|..])
      && DigitsValue(r.value.call.args.value[|OsGuessWithPorts|..]) == port
  {
    var a := OsGuessWithPorts + Str(PInt(port));
    assert a[..|OsGuessWithPorts|] == OsGuessWithPorts;
    assert a[|OsGuessWithPorts|..] == Str(PInt(port));
  }

  /* ---------- the template path ---------- */

  /**
   * With no truthy domain and no truthy ports, a non-zero template id is
   * looked up and dispatched by its partition, with no fourth argument.
   */
  lemma TemplatePathPlan(target: PyValue, domain: PyValue, ports: PyValue, i: int)
    requires i != 0 && !Truthy(domain) && !Truthy(ports)
    ensures Select(target, domain, ports, Some(i)) == Plan(Partition(i), i, target, PNone)
  {
  }

  /** Template 21 without ports passes `ports_num = None`: the arguments end in "None". */
  lemma Template21ArgsEndInNone(target: PyValue, domain: PyValue, ports: PyValue)
    requires !Truthy(domain) && !Truthy(ports)
    ensures LaunchScan(target, domain, ports, Some(21))
         == Success(Returned(Call(PortscanOnly, target, Some("-O --osscan-guess -p None"))))
  {
    assert OsGuessWithPorts + "None" == "-O --osscan-guess -p None";
  }

  /** Template 27 without a domain runs the DNS brute-force script on `None`, not on the target. */
  lemma Template27BrutesNone(target: PyValue, domain: PyValue, ports: PyValue)
    requires !Truthy(domain) && !Truthy(ports)
    ensures LaunchScan(target, domain, ports, Some(27)) == Success(Returned(Call(DnsBruteScript, PNone, None)))
  {
  }

  /** Template 2 performs the idle scan and hands back nothing. */
  lemma Template2DiscardsIdleScan(target: PyValue, domain: PyValue, ports: PyValue)
    requires !Truthy(domain) && !Truthy(ports)
    ensures LaunchScan(target, domain, ports, Some(2)) == Success(Discarded(Call(IdleScan, target, None)))
  {
  }

  /** The smallest template id that makes the same call: 7, 10 and 26 are aliases. */
  function Canonical(i: int): int
  {
    if i == 7 then 3 else if i == 10 then 9 else if i == 26 then 25 else i
  }

  /**
   * Read an outcome of the template path back to the (smallest) template id
   * that produces it; 0 when no template produces it.
   */
  function TemplateFor(o: Outcome): int
  {
    var c := o.call;
    match c.op
    case FinScan => 1
    case IdleScan => 2
    case SynScan => 3
    case PingScan => 4
    case TcpScan => 5
    case UdpScan => 6
    case PortscanOnly =>
      if c.args == None then 8
      else if c.args == Some("-O --osscan-guess") then 12
      else if c.args == Some("-A") then 13
      else if c.args == Some("-A -T2") then 14
      else if c.args == Some("-A -v") then 15
      else if c.args == Some("-n -A") then 16
      else if c.args == Some("-f -A") then 17
      else if c.args == Some("-T4 -sV") then 18
      else if c.args == Some("-n -sV --version-intensity 3") then 19
      else if c.args == Some("-n -V") then 20
      else if c.args == Some(OsGuessWithPorts + "None") then 21
      else 0
    case NoPortscan => 9
    case DisableDns => 11
    case VersionDetection => if c.args == None then 30 else 22
    case DetectFirewall => 23
    case OsDetection => 24
    case TopPorts => 25
    case DnsBruteScript => 27
    case ListScan => 28
    case SubnetScan => 29
  }

  /** Template path for ids 1 to 7: the outcome reads back to the id's canonical form. */
  lemma TechniqueTemplatesDecode(target: PyValue, i: int)
    requires 1 <= i <= 7
    ensures var r := Run(Plan(Partition(i), i, target, PNone));
      r.Success? && TemplateFor(r.value) == Canonical(i)
  {
    if i == 1 {} else if i == 2 {} else if i == 3 {} else if i == 4 {}
    else if i == 5 {} else if i == 6 {} else {}
  }

  /** Template path for ids 8 to 21. */
  lemma DiscoveryTemplatesDecode(target: PyValue, i: int)
    requires 8 <= i <= 21
    ensures var r := Run(Plan(Partition(i), i, target, PNone));
      r.Success? && TemplateFor(r.value) == Canonical(i)
  {
    if i == 8 {} else if i == 9 {} else if i == 10 {} else if i == 11 {}
    else if i == 21 {
      assert Run(Plan(Partition(i), i, target, PNone))
          == Success(Returned(Call(PortscanOnly, target, Some(OsGuessWithPorts + "None"))));
    } else {
      PassedThroughTemplatesDecode(target, i);
    }
  }

  /** Ids 12 to 20: the flag itself becomes the `args` of the port-scan-only call. */
  lemma PassedThroughTemplatesDecode(target: PyValue, i: int)
    requires 12 <= i <= 20
    ensures var r := Run(Plan(Partition(i), i, target, PNone));
      r.Success? && r.value == Returned(Call(PortscanOnly, target, Tpl(i)))
      && TemplateFor(r.value) == i
  {
    var f := Tpl(i).value;
    assert f in FlagsFor(PortscanOnly) && f != "-Pn" && f != OsGuessWithPorts by {
      if i == 12 {} else if i == 13 {} else if i == 14 {} else if i == 15 {}
      else if i == 16 {} else if i == 17 {} else if i == 18 {} else if i == 19 {}
      else {}
    }
    PortscanOnlyArgs(f, target, PNone);
    if i == 12 {} else if i == 13 {} else if i == 14 {} else if i == 15 {}
    else if i == 16 {} else if i == 17 {} else if i == 18 {} else if i == 19 {}
    else {}
  }

  /** Template path for ids 22 to 30. */
  lemma CommandTemplatesDecode(target: PyValue, i: int)
    requires 22 <= i <= 30
    ensures var r := Run(Plan(Partition(i), i, target, PNone));
      r.Success? && TemplateFor(r.value) == Canonical(i)
  {
    if i == 22 {} else if i == 23 {} else if i == 24 {} else if i == 25 {}
    else if i == 26 {} else if i == 27 {} else if i == 28 {} else if i == 29 {}
    else {}
  }

  /** Every template id 1..30 succeeds and its outcome reads back to its canonical id. */
  lemma TemplateOutcomeDecodes(target: PyValue, domain: PyValue, ports: PyValue, i: int)
    requires 1 <= i <= 30 && !Truthy(domain) && !Truthy(ports)
    ensures var r := LaunchScan(target, domain, ports, Some(i));
      r.Success? && TemplateFor(r.value) == Canonical(i)
  {
    TemplatePathPlan(target, domain, ports, i);
    if i <= 7 {
      TechniqueTemplatesDecode(target, i);
    } else if i <= 21 {
      DiscoveryTemplatesDecode(target, i);
    } else {
      CommandTemplatesDecode(target, i);
    }
  }

  /** The alias pairs (3, 7), (9, 10) and (25, 26) make the same call. */
  lemma AliasTemplatesAgree(target: PyValue, domain: PyValue, ports: PyValue, i: int)
    requires 1 <= i <= 30 && !Truthy(domain) && !Truthy(ports)
    ensures LaunchScan(target, domain, ports, Some(i)) == LaunchScan(target, domain, ports, Some(Canonical(i)))
  {
    if Canonical(i) != i {
      TemplatePathPlan(target, domain, ports, i);
      TemplatePathPlan(target, domain, ports, Canonical(i));
      if i == 7 {
        assert Tpl(7) == Some("-F") && Tpl(3) == Some("-sS");
        FastScanIsSynScan(target);
      } else if i == 10 {
        assert Tpl(10) == Some("-PR") && Tpl(9) == Some("-sn");
        ArpScanIsNoPortscan(target, PNone);
      } else {
        assert Tpl(26) == Some("--top-ports") && Tpl(25) == Some("20 -sZ");
        SctpTopPortsIsTopPorts(target, PNone);
      }
    }
  }

  /**
   * Two template ids in 1..30 make the same call exactly when they are equal
   * or one of the alias pairs (3, 7), (9, 10), (25, 26).
   */
  lemma TemplateOutcomesDistinct(target: PyValue, domain: PyValue, ports: PyValue, i: int, j: int)
    requires 1 <= i <= 30 && 1 <= j <= 30 && !Truthy(domain) && !Truthy(ports)
    ensures LaunchScan(target, domain, ports, Some(i)) == LaunchScan(target, domain, ports, Some(j))
        <==> Canonical(i) == Canonical(j)
  {
    TemplateOutcomeDecodes(target, domain, ports, i);
    TemplateOutcomeDecodes(target, domain, ports, j);
    AliasTemplatesAgree(target, domain, ports, i);
    AliasTemplatesAgree(target, domain, ports, j);
  }
}

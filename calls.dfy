/**
 * Descriptors for the calls the routing makes into the nmap binding library.
 * The binding itself (process execution, XML parsing) is outside the model:
 * a call is identified by the binding method, the value it is called on and
 * the optional `args=` keyword.
 */
module Calls {
  import opened Wrappers
  import opened PyValues

  /** The three binding objects `launch` constructs (`nm`, `nmt`, `nmd`). */
  datatype Binding = Nmap | NmapScanTechniques | NmapHostDiscovery

  /** The binding methods the dispatchers call. */
  datatype Method =
    // NmapScanTechniques
    | FinScan | IdleScan | PingScan | SynScan | TcpScan | UdpScan
    // NmapHostDiscovery
    | PortscanOnly | NoPortscan | DisableDns
    // Nmap
    | DetectFirewall | OsDetection | TopPorts | DnsBruteScript | ListScan
    | SubnetScan | VersionDetection

  /** The binding object that owns each method. */
  function Owner(m: Method): Binding
  {
    match m
    case FinScan | IdleScan | PingScan | SynScan | TcpScan | UdpScan => NmapScanTechniques
    case PortscanOnly | NoPortscan | DisableDns => NmapHostDiscovery
    case _ => Nmap
  }

  /** One call on the binding: the method `op` of its binding object called on `subject`, with `args=` when present. */
  datatype Call = Call(op: Method, subject: PyValue, args: Option<string>)

  /**
   * What a dispatcher does: make a call and return its result, or make the
   * call and return `None` without its result.
   */
  datatype Outcome = Returned(call: Call) | Discarded(call: Call)

  /** The `ValueError("Not a scan technique")` every dispatcher raises. */
  datatype ScanError = NotAScanTechnique

  /**
   * The flag strings that route to each method, read in the opposite direction
   * from the dispatchers: organised by method, not by flag.
   */
  function FlagsFor(m: Method): set<string>
  {
    match m
    case FinScan => {"-sF"}
    case IdleScan => {"-sI"}
    case PingScan => {"-sP"}
    case SynScan => {"-sS", "-F"}
    case TcpScan => {"-sT"}
    case UdpScan => {"-sU"}
    case PortscanOnly =>
      {"-Pn", "-O --osscan-guess", "-A -T2", "-A", "-A -v", "-T4 -sV", "-n -A",
       "-n -V", "-f -A", "-n -sV --version-intensity 3", "-O --osscan-guess -p "}
    case NoPortscan => {"-sn", "-PR"}
    case DisableDns => {"-n"}
    case DetectFirewall => {"-sA"}
    case OsDetection => {"-O"}
    case TopPorts => {"--top-ports", "20 -sZ"}
    case DnsBruteScript => {"-script dns-brute"}
    case ListScan => {"-sL"}
    case SubnetScan => {"-p-"}
    case VersionDetection => {"-sV", "-sX"}
  }

  /** Every flag some method of binding object `b` answers to. */
  function FlagsOf(b: Binding): set<string>
  {
    match b
    case NmapScanTechniques =>
      FlagsFor(FinScan) + FlagsFor(IdleScan) + FlagsFor(PingScan) + FlagsFor(SynScan)
      + FlagsFor(TcpScan) + FlagsFor(UdpScan)
    case NmapHostDiscovery =>
      FlagsFor(PortscanOnly) + FlagsFor(NoPortscan) + FlagsFor(DisableDns)
    case Nmap =>
      FlagsFor(DetectFirewall) + FlagsFor(OsDetection) + FlagsFor(TopPorts)
      + FlagsFor(DnsBruteScript) + FlagsFor(ListScan) + FlagsFor(SubnetScan)
      + FlagsFor(VersionDetection)
  }

  /** Whether a (possibly absent) flag is one binding object `b` answers to. */
  predicate Accepts(b: Binding, scanType: Option<string>)
  {
    scanType.Some? && scanType.value in FlagsOf(b)
  }
}

# Template routing of the python3-nmap example launcher

`example.py` turns a numeric *template id* (1 to 30), a target, an optional
domain and an optional port list into at most one call on the nmap binding
library (`nmap3`). No call is made when a dispatcher raises `ValueError`. It uses three parts:

* the template table `tpl`, which maps ids to nmap flag strings;
* three dispatchers, `scan_techniques`, `scan_discovery` and `scan_command`.
  Each one switches on a flag string and calls one method of its binding
  object (`NmapScanTechniques`, `NmapHostDiscovery` or `Nmap`). A flag
  outside its set raises `ValueError("Not a scan technique")`;
* the mode selection in `launch`. It chooses a dispatcher and a template id
  from the truthiness of `templates`, `domain` and `ports`.

This project models these parts as pure Dafny functions and proves facts
about the whole table. A binding call becomes a descriptor:
`Call(op, subject, args)`. A dispatcher yields one of three results:

* `Returned(call)`: it makes the call and returns the call's result;
* `Discarded(call)`: it makes the call and returns `None`, as the idle scan does;
* `Failure(NotAScanTechnique)`: it raises `ValueError`.

The values that `launch` passes on are modelled as Python values
(`PNone | PInt | PStr`). The model covers their truthiness and their `str()`.

Modules:

* `Wrappers` (wrappers.dfy) holds `Option` and `Result`.
* `PyValues` (pyvalues.dfy) holds Python truthiness and `str()`, including the
  decimal numeral of an int and the proof that it reads back.
* `Calls` (calls.dfy) holds the binding objects, their methods, the call
  descriptors, and `FlagsFor`. `FlagsFor` is the inverse routing table: for
  each method, the flags that reach it.
* `Dispatchers` (dispatch.dfy) holds the three dispatchers and the routing and
  alias lemmas.
* `Launch` (launch.dfy) holds the template table, the mode selection, the
  whole-table lemmas and the precedence lemmas.

The precedence of the modes is subtler than it looks. `ports` counts only
when `templates` or `domain` is truthy (example.py:223-224). When neither is
truthy, template 3 runs and `ports` is ignored (example.py:274-276). See
`PortsIgnoredWithoutTemplateOrDomain` and `DefaultIsTemplate3`.

## Model

| member | source | states |
|---|---|---|
| `Launch.Tpl` | example.py:165-207 | the table gives a flag for exactly the ids 1..30 and `None` for every other id |
| `Dispatchers.ScanTechniques` | example.py:57-81 | a successful call is made on the target without args, and its result is discarded exactly for the idle scan |
| `Dispatchers.ScanDiscovery` | example.py:84-129 | a successful call is made on the target and its result returned; args are present exactly for port-scan-only flags other than `-Pn`, and they are the flag itself, with `str(ports_num)` appended for the port-selection flag |
| `Dispatchers.ScanCommand` | example.py:132-161 | a successful call returns its result; the DNS brute-force script gets the domain and every other method gets the target; args are present only for `-sX`, and then they are `-sX` |
| `Dispatchers.ScanTechniquesRouting` | example.py:57-81 | `scan_techniques` raises exactly for flags (and `None`) outside the flag sets of the `NmapScanTechniques` methods; otherwise it calls a method of that object whose flag set holds the flag |
| `Dispatchers.ScanDiscoveryRouting` | example.py:84-129 | `scan_discovery` raises exactly for flags outside the flag sets of the `NmapHostDiscovery` methods; otherwise it calls a method of that object whose flag set holds the flag |
| `Dispatchers.ScanCommandRouting` | example.py:132-161 | `scan_command` raises exactly for flags outside the flag sets of the `Nmap` methods; otherwise it calls a method of that object whose flag set holds the flag |
| `Dispatchers.DispatchRouting` | example.py:57-161 | for each of the three binding objects, its dispatcher fails exactly on the flags that object does not accept, and otherwise routes to one of its own methods that lists the flag |
| `Dispatchers.FlagReachesItsMethod` | example.py:57-161 | every flag listed for a method is routed to that method by the dispatcher of the method's binding object |
| `Dispatchers.RoutesIff` | example.py:57-161 | a flag reaches method `m` through dispatcher `b` if and only if `m` belongs to `b` and the inverse table lists the flag for `m` |
| `Dispatchers.FastScanIsSynScan` | example.py:68-72 | `-F` and `-sS` make the same SYN-scan call |
| `Dispatchers.ArpScanIsNoPortscan` | example.py:88-92 | `-sn` and `-PR` make the same no-portscan call |
| `Dispatchers.SctpTopPortsIsTopPorts` | example.py:139-143 | `--top-ports` and `20 -sZ` make the same top-ports call |
| `Dispatchers.IdleScanReturnsNothing` | example.py:61-63 | `-sI` makes the idle-scan call and returns nothing |
| `Dispatchers.PortscanOnlyArgs` | example.py:85-126 | `-Pn` passes no args; the compound flags are passed unchanged as args; the port-selection flag is passed with `str(ports_num)` appended |
| `Dispatchers.XmasIsVersionDetectionWithArgs` | example.py:154-158 | `-sV` calls version detection without args, and `-sX` calls it with `args='-sX'` |
| `Dispatchers.DnsBruteUsesDomain` | example.py:145-146 | the DNS brute-force script runs on the domain, whatever the target is |
| `PyValues.Truthy` | example.py:223-224 | a value is falsy exactly when it is `None`, `0` or `""`, as in `if templates or domain:`, `if ports:` and `elif domain:` |
| `Launch.TemplatesTruthy` | example.py:223 | `templates` is truthy exactly when the Python truthiness of its value (`None` or the int) holds |
| `Launch.Partition` | example.py:250-267 | the template path sends ids `<= 7` to the scan techniques, ids in `range(8, 22)` to host discovery and ids of 22 or more to the scan commands, and each id to exactly one of them |
| `Dispatchers.Dispatch` | example.py:57-161 | the dispatcher chosen for a binding object only ever calls methods of that object |
| `Launch.Select` | example.py:223-276 | in all four modes the chosen dispatcher is the one the template-path partition assigns to the chosen id; the id is 21, 27, 3 or the given template; outside the template path the id is in 1..30; the fourth argument is the ports on the ports path, the domain on the domain path, and `None` otherwise |
| `Launch.PartitionAcceptsTable` | example.py:168-204 | the dispatcher that the partition (`<= 7`, `range(8, 22)`, the rest) picks for an id accepts that id's flag if and only if the id is in 1..30 |
| `Launch.LaunchScan` | example.py:223-276 | `launch` raises `ValueError` exactly when the template path is taken (template truthy, domain and ports falsy) with an id outside 1..30 |
| `Launch.PortsWinWhenTemplateOrDomainSet` | example.py:223-230 | once a template or a domain is set, truthy ports select template 21 on the target with `str(ports)` appended, whatever the template and domain are |
| `Launch.PortsIgnoredWithoutTemplateOrDomain` | example.py:223-224 | with neither a template nor a domain, the ports make no difference and the default SYN scan (template 3) runs |
| `Launch.DomainOverridesTemplate` | example.py:237-239 | a truthy domain without ports runs the DNS brute-force script on the domain, whatever the target and the template are |
| `Launch.TemplateZeroIsNoTemplate` | example.py:223 | `templates == 0` behaves exactly like `templates is None` |
| `Launch.DefaultIsTemplate3` | example.py:274-276 | without domain or ports, no template is the same as template 3; with ports the two differ |
| `Launch.PortsAndTemplate5SelectDiscovery` | example.py:223-230 | `ports=80`, no domain and template 5 select the discovery path with args `-O --osscan-guess -p 80`, not the TCP connect scan |
| `Launch.PortsPathArgsCarryPort` | example.py:124-126 | on the ports path with a positive integer port, the args are the port-selection flag followed by decimal digits that read back as the port |
| `Launch.TemplatePathPlan` | example.py:246-267 | with domain and ports falsy, a non-zero template is looked up and dispatched by its partition, with no fourth argument |
| `Launch.Template21ArgsEndInNone` | example.py:258-259 | template 21 without ports passes `ports_num = None`, so its args are `-O --osscan-guess -p None` |
| `Launch.Template27BrutesNone` | example.py:266-267 | template 27 without a domain runs the DNS brute-force script on `None`, not on the target |
| `Launch.Template2DiscardsIdleScan` | example.py:250-251 | template 2 makes the idle-scan call and returns nothing |
| `Launch.TemplateOutcomeDecodes` | example.py:165-267 | every template in 1..30 succeeds, and its call reads back through `TemplateFor` to its canonical id |
| `Launch.AliasTemplatesAgree` | example.py:165-267 | templates 7, 10 and 26 make the same call as 3, 9 and 25 |
| `Launch.TemplateOutcomesDistinct` | example.py:165-267 | two templates in 1..30 make the same call if and only if they are equal or one of the alias pairs (3, 7), (9, 10), (25, 26) |
| `PyValues.NatToDecimal` | example.py:125 | `str` of a non-negative int is a non-empty string of decimal digits with no leading zero |
| `PyValues.DecimalRoundTrip` | example.py:125 | the digits of `str(n)` read back as `n` |
| `PyValues.IntToDecimal` | example.py:125 | `str` of an int is its canonical numeral: digits with no leading zero (except `0` itself) that read back as the int, preceded by `-` for a negative value |
| `PyValues.Str` | example.py:125 | `str(None)` is `"None"`, `str` of a string is that string, and `str` of an int is its canonical numeral: no leading zero, a `-` before the digits of a negative int, digits that read back as the int |

## Left out

- The nmap binding itself: constructing `Nmap`, `NmapScanTechniques` and `NmapHostDiscovery`, running nmap and building its report. A call is only a descriptor, so the model cannot say what a scan returns or whether the binding raises.
- The JSON serialisation, the syntax highlighting and every `print`, including the debug line that prints `tpl(21) + str(ports)`. These are console output only.
- The structure of the scan report described in the header comment. It belongs to the external tool.
- The `__main__` entry and the commented-out error handling.
- Python values other than `None`, ints and strings (booleans, lists, floats) for target, domain and ports.
- A `templates` that is not an int or `None`. A bool or float is compared and looked up by its numeric value: `True` and `3.0` find `-sF` and `-sS`, `10.0` is in `range(8, 22)`, and `2.5` finds no flag and raises `ValueError`. A non-numeric value raises `TypeError`, and only on the template path: an unhashable one (a list, a dict) already at the table lookup `template.get(i)`, any other at `templates <= 7`.
- PyValues.IntToDecimal: total for every int, whereas recent CPython releases raise `ValueError` from `str()` of an int with more than 4300 digits (the default integer-string conversion limit).
- The return value of `launch`: it returns nothing and only prints. The model gives instead the plan it makes (`Launch.Select`), and the call it makes or the error it raises (`Launch.LaunchScan`).

/**
  Address parsing from Go's `net` and `net/netip` packages, as the scanner
  uses it. Parsing an IP address and splitting `host:port` are library
  parsers; they are supplied as functions in a `NetLib`. `JoinHostPort` is
  simple enough to be defined here.
 */
module Net {
  import opened Wrappers

  /** A parsed address (netip.Addr): its canonical text and whether it is IPv6. */
  datatype Addr = Addr(text: string, is6: bool)

  /** The two halves returned by net.SplitHostPort. */
  datatype HostPort = HostPort(host: string, port: string)

  /** netip.ParseAddr and net.SplitHostPort; `None` stands for their error. */
  datatype NetLib = NetLib(
    parseAddr: string -> Option<Addr>,
    splitHostPort: string -> Option<HostPort>)

  /** net.JoinHostPort: a host with a colon in it is bracketed. */
  function JoinHostPort(host: string, port: string): (r: string)
    ensures ':' in host ==> r == "[" + host + "]:" + port
    ensures ':' !in host ==> r == host + ":" + port
  {
    if ':' in host then "[" + host + "]:" + port else host + ":" + port
  }

  /** An address and a port printed as `ip:port`, or `[ip]:port` for IPv6. */
  function Render(a: Addr, port: string): string {
    if a.is6 then "[" + a.text + "]:" + port else a.text + ":" + port
  }

  /**
    The behaviour of the two parsers that the normalisers rely on: the
    canonical text of a parsed address parses back to the same address, and a
    rendered `ip:port` is not itself an address but splits back into its parts.
   */
  ghost predicate Lawful(net: NetLib) {
    && (forall s :: net.parseAddr(s).Some? ==>
          net.parseAddr(net.parseAddr(s).value.text) == net.parseAddr(s))
    && (forall a: Addr, p: string :: net.parseAddr(a.text) == Some(a) ==>
          net.parseAddr(Render(a, p)).None? && net.splitHostPort(Render(a, p)) == Some(HostPort(a.text, p)))
  }

}

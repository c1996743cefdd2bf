/**
  The command-line front: the guard every subcommand runs on its
  arguments, and the translation of the `--dns` provider names into the
  nameserver list the scanner is given.
 */
module Cli {
  import opened Wrappers

  /** The public resolver the scanner falls back to when no provider is named. */
  const DefaultNameserver: string := "9.9.9.9:53"

  /** The provider names `--dns` accepts. */
  const Providers: set<string> := {"cloudflare", "google", "level3", "opendns", "quad9"}

  /** The servers a provider name stands for, in the order they are appended; None for an unknown name. */
  function ProviderServers(provider: string): (servers: Option<seq<string>>)
    ensures servers.Some? <==> provider in Providers
  {
    match provider
    case "cloudflare" => Some(["1.1.1.1:53", "1.0.0.1:53"])
    case "google" => Some(["8.8.8.8:53", "8.8.4.4:53"])
    case "level3" => Some(["4.2.2.1:53", "4.2.2.2:53", "4.2.2.3:53", "4.2.2.4:53", "4.2.2.5:53", "4.2.2.6:53"])
    case "opendns" => Some(["208.67.222.222:53", "208.67.220.220:53"])
    case "quad9" => Some(["9.9.9.9:53", "149.112.112.112:53"])
    case _ => None
  }

  /** A server address that ends in port 53. */
  predicate Port53(server: string) {
    |server| >= 3 && server[|server| - 3..] == ":53"
  }

  /** Every provider stands for at least two servers, each on port 53. */
  lemma ProviderPorts(provider: string)
    requires provider in Providers
    ensures |ProviderServers(provider).value| >= 2
    ensures forall i :: 0 <= i < |ProviderServers(provider).value| ==> Port53(ProviderServers(provider).value[i])
  {
  }

  /** The lookup from provider names to servers, as a function value. */
  type Lookup = string -> Option<seq<string>>

  /** The servers `lookup` gives for the providers, in order; a name it does not know adds nothing. */
  function Expand(lookup: Lookup, providers: seq<string>): seq<string>
    decreases |providers|
  {
    if |providers| == 0 then []
    else
      var last := providers[|providers| - 1];
      Expand(lookup, providers[..|providers| - 1])
        + (if lookup(last).Some? then lookup(last).value else [])
  }

  /** How many providers, from the front, `lookup` knows. */
  function KnownPrefix(lookup: Lookup, providers: seq<string>): (k: nat)
    ensures k <= |providers|
    ensures forall i :: 0 <= i < k ==> lookup(providers[i]).Some?
    ensures k < |providers| ==> lookup(providers[k]).None?
    decreases |providers|
  {
    if |providers| == 0 || lookup(providers[0]).None? then 0 else 1 + KnownPrefix(lookup, providers[1..])
  }

  /** The message log.Fatal prints for an unknown provider. */
  function UnknownProvider(provider: string): string {
    "Provider " + provider + " does not exist"
  }

  /**
    The nameserver list after the providers are applied to the list `ns`
    that `--nameservers` gave, and the fatal error if a name is unknown:
    the servers of each known provider in turn, up to the first unknown
    name; the single default server when no provider is named.
   */
  function Apply(lookup: Lookup, providers: seq<string>, ns: seq<string>): (seq<string>, Option<string>) {
    if |providers| == 0 then ([DefaultNameserver], None)
    else
      var k := KnownPrefix(lookup, providers);
      (ns + Expand(lookup, providers[..k]), if k < |providers| then Some(UnknownProvider(providers[k])) else None)
  }

  /** Apply with the five providers of `--dns`. */
  function Applied(providers: seq<string>, ns: seq<string>): (seq<string>, Option<string>) {
    Apply(ProviderServers, providers, ns)
  }

  /** The package-level flag values SetNameservers reads and writes. */
  class Flags {
    var dns: seq<string>
    var nameservers: seq<string>

    constructor(dns: seq<string>, nameservers: seq<string>)
      ensures this.dns == dns && this.nameservers == nameservers
    {
      this.dns := dns;
      this.nameservers := nameservers;
    }

    /**
      SetNameservers: appends the servers of each `--dns` provider to the
      nameservers, or sets the default when there is none. An unknown name
      is fatal: the method stops there and returns the message, and the
      servers appended before it stay.
     */
    method SetNameservers() returns (fatal: Option<string>)
      modifies this
      ensures dns == old(dns)
      ensures (nameservers, fatal) == Applied(old(dns), old(nameservers))
    {
      if |dns| > 0 {
        var i := 0;
        while i < |dns|
          invariant 0 <= i <= |dns| && i <= KnownPrefix(ProviderServers, dns)
          invariant dns == old(dns)
          invariant nameservers == old(nameservers) + Expand(ProviderServers, dns[..i])
        {
          var servers := ProviderServers(dns[i]);
          if servers.None? {
            return Some(UnknownProvider(dns[i]));
          }
          assert dns[..i + 1][..i] == dns[..i];
          nameservers := nameservers + servers.value;
          i := i + 1;
        }
        fatal := None;
      } else {
        nameservers := [DefaultNameserver];
        fatal := None;
      }
    }
  }

  /** The servers of two lists of providers are the servers of each, in order. */
  lemma {:induction false} ExpandAppend(lookup: Lookup, ps: seq<string>, qs: seq<string>)
    ensures Expand(lookup, ps + qs) == Expand(lookup, ps) + Expand(lookup, qs)
    decreases |qs|
  {
    if |qs| == 0 {
      assert ps + qs == ps;
    } else {
      var front := qs[..|qs| - 1];
      assert (ps + qs)[..|ps + qs| - 1] == ps + front;
      ExpandAppend(lookup, ps, front);
    }
  }

  /** Every server the five providers add listens on port 53. */
  lemma {:induction false} ServersPort53(ps: seq<string>)
    ensures forall i :: 0 <= i < |Expand(ProviderServers, ps)| ==> Port53(Expand(ProviderServers, ps)[i])
    decreases |ps|
  {
    if |ps| > 0 {
      ServersPort53(ps[..|ps| - 1]);
      var last := ps[|ps| - 1];
      if last in Providers {
        ProviderPorts(last);
      }
    }
  }

  /** With known providers only there is no error, and the list ends with their servers. */
  lemma AllKnown(lookup: Lookup, providers: seq<string>, ns: seq<string>)
    requires |providers| > 0
    requires forall i :: 0 <= i < |providers| ==> lookup(providers[i]).Some?
    ensures Apply(lookup, providers, ns) == (ns + Expand(lookup, providers), None)
  {
    KnownPrefixAppend(lookup, providers, []);
    assert providers + [] == providers;
    assert providers[..|providers|] == providers;
  }

  lemma {:induction false} KnownPrefixAppend(lookup: Lookup, ps: seq<string>, qs: seq<string>)
    requires forall i :: 0 <= i < |ps| ==> lookup(ps[i]).Some?
    ensures KnownPrefix(lookup, ps + qs) == |ps| + KnownPrefix(lookup, qs)
    decreases |ps|
  {
    if |ps| > 0 {
      assert (ps + qs)[0] == ps[0];
      assert (ps + qs)[1..] == ps[1..] + qs;
      KnownPrefixAppend(lookup, ps[1..], qs);
    } else {
      assert ps + qs == qs;
    }
  }

  /**
    Providers applied in two runs give what one run over both lists gives,
    when the first run has no unknown name.
   */
  lemma AppliedTwice(lookup: Lookup, ps: seq<string>, qs: seq<string>, ns: seq<string>)
    requires |ps| > 0 && |qs| > 0
    requires forall i :: 0 <= i < |ps| ==> lookup(ps[i]).Some?
    ensures Apply(lookup, ps + qs, ns) == Apply(lookup, qs, Apply(lookup, ps, ns).0)
  {
    AllKnown(lookup, ps, ns);
    var all, k := ps + qs, KnownPrefix(lookup, qs);
    KnownPrefixAppend(lookup, ps, qs);
    assert KnownPrefix(lookup, all) == |ps| + k;
    assert all[..|ps| + k] == ps + qs[..k];
    ExpandAppend(lookup, ps, qs[..k]);
    var e1, e2 := Expand(lookup, ps), Expand(lookup, qs[..k]);
    assert Apply(lookup, ps, ns).0 == ns + e1;
    assert Apply(lookup, all, ns).0 == (ns + e1) + e2;
    if k < |qs| {
      assert all[|ps| + k] == qs[k];
    }
  }

  /** An unknown name is the error, whatever follows it; the servers of the names before it are kept. */
  lemma UnknownStops(lookup: Lookup, ps: seq<string>, bad: string, rest: seq<string>, ns: seq<string>)
    requires forall i :: 0 <= i < |ps| ==> lookup(ps[i]).Some?
    requires lookup(bad).None?
    ensures Apply(lookup, ps + [bad] + rest, ns) == (ns + Expand(lookup, ps), Some(UnknownProvider(bad)))
  {
    var tail := [bad] + rest;
    var all := ps + tail;
    assert ps + [bad] + rest == all;
    assert tail[0] == bad;
    assert KnownPrefix(lookup, tail) == 0;
    KnownPrefixAppend(lookup, ps, tail);
    assert all[..|ps|] == ps;
    assert all[|ps|] == bad;
  }

  /** What Check decides for a subcommand's arguments. */
  datatype Decision = HelpAndExit(code: int) | Proceed

  /** Check: with no arguments, show the help and exit with status 0; otherwise go on. */
  function Check(args: seq<string>): (d: Decision)
    ensures d == HelpAndExit(0) <==> |args| == 0
    ensures d == Proceed <==> |args| > 0
  {
    if |args| == 0 then HelpAndExit(0) else Proceed
  }

}

/**
  The slice of the DNS wire model that the scanner looks at: resource records
  by their concrete type, a response message, and a query. The exchange with a
  nameserver is not modelled; it is a function value supplied by the caller.
 */
module Dns {
  import opened Wrappers

  /** Resource record type codes (RFC 1035 section 3.2.2, RFC 3596). */
  const TypeA: nat := 1
  const TypeNS: nat := 2
  const TypeCNAME: nat := 5
  const TypeMX: nat := 15
  const TypeTXT: nat := 16
  const TypeAAAA: nat := 28

  /** Record data, by the concrete record type the DNS library decoded. */
  datatype RData =
    | A(a: string)             // address already in its printed form
    | AAAA(aaaa: string)
    | MX(mx: string)
    | NS(ns: string)
    | TXT(txt: seq<string>)    // the character-strings of one TXT record
    | CNAME(target: string)
    | Unknown                  // any other record type

  /** A resource record: the type code in its header and its data. */
  datatype RR = RR(rrtype: nat, data: RData)

  /** A response: the TC (truncated) header bit and the answer section. */
  datatype Msg = Msg(truncated: bool, answer: seq<RR>)

  /** A question for one name and type, with the advertised EDNS0 UDP payload size. */
  datatype Query = Query(name: string, qtype: nat, udpSize: nat)

  /** Number of backslashes at the end of `s`. */
  function TrailingBackslashes(s: string): (n: nat)
    ensures n <= |s|
    ensures forall i :: |s| - n <= i < |s| ==> s[i] == '\\'
    ensures n < |s| ==> s[|s| - n - 1] != '\\'
    decreases |s|
  {
    if |s| > 0 && s[|s| - 1] == '\\' then 1 + TrailingBackslashes(s[..|s| - 1]) else 0
  }

  /** dns.IsFqdn: the name ends in a dot that is not escaped by a backslash. */
  predicate IsFqdn(s: string) {
    |s| > 0 && s[|s| - 1] == '.' && TrailingBackslashes(s[..|s| - 1]) % 2 == 0
  }

  /** dns.Fqdn: append the root dot unless the name is already fully qualified. */
  function Fqdn(s: string): (r: string)
    ensures IsFqdn(s) ==> r == s
    ensures !IsFqdn(s) ==> r == s + "."
  {
    if IsFqdn(s) then s else s + "."
  }

}

/**
  Record resolution of pkg/scanner/requests.go: the EDNS0 truncation retry,
  CNAME flattening, multi-string TXT reassembly, the candidate names tried for
  BIMI, DKIM and DMARC, SPF redirect following, and the record-type
  dispatcher that fills a scan result.

  The exchange with a nameserver is the function `exchange` of a `Resolver`.
  CNAME and SPF-redirect recursion have no bound in the source; here each
  carries `fuel`, and running out of fuel is reported as `FuelExhausted`.
 */
module Requests {
  import opened Wrappers
  import opened Strings
  import opened Dns

  const BIMIPrefix := "v=BIMI1;"
  const DKIMPrefix := "v=DKIM1;"
  const DMARCPrefix := "v=DMARC1;"
  const SPFPrefix := "v=spf1 "

  /** Selectors tried after the caller's own, in this order. */
  const KnownDkimSelectors: seq<string> := [
    "x", "google", "selector1", "selector2", "k1",
    "mandrill", "everlytickey1", "everlytickey2", "dkim", "mxvault"
  ]

  /** The EDNS0 payload size used for the retry of a truncated response. */
  const RetryBuffer: nat := 4096

  /** Error text when the model's recursion bound is reached. */
  const FuelExhausted := "recursion bound reached"

  /** Error text of the dispatcher for a type name it does not know. */
  const InvalidRecordType := "invalid dns record type"

  /** What the resolution code reads from the scanner. */
  datatype Resolver = Resolver(
    exchange: Query -> Result<Msg, string>,
    dnsBuffer: nat,
    dkimSelectors: seq<string>)

  // ---------------------------------------------------------------------------
  // getDNSAnswers: one query, and one retry with a 4096-byte buffer
  // ---------------------------------------------------------------------------

  /** The answers of getDNSAnswers together with the queries it sent, in order. */
  datatype Exchanged = Exchanged(answers: Result<seq<RR>, string>, sent: seq<Query>)

  function GetDNSAnswers(r: Resolver, domain: string, qtype: nat): (x: Exchanged)
    ensures |x.sent| == 1 || |x.sent| == 2
    ensures x.sent[0] == Query(Fqdn(domain), qtype, r.dnsBuffer)
    ensures |x.sent| == 2 <==>
      (r.exchange(x.sent[0]).Ok? && r.exchange(x.sent[0]).value.truncated && r.dnsBuffer < RetryBuffer)
    ensures |x.sent| == 2 ==> x.sent[1] == Query(Fqdn(domain), qtype, RetryBuffer)
    ensures var last := r.exchange(x.sent[|x.sent| - 1]);
      && (x.answers.Ok? <==> last.Ok?)
      && (x.answers.Ok? ==> x.answers.value == last.value.answer)
      && (x.answers.Err? ==> x.answers.error == last.error)
  {
    var first := Query(Fqdn(domain), qtype, r.dnsBuffer);
    match r.exchange(first)
    case Err(e) => Exchanged(Err(e), [first])
    case Ok(m) =>
      if m.truncated && r.dnsBuffer < RetryBuffer then
        var second := Query(Fqdn(domain), qtype, RetryBuffer);
        match r.exchange(second)
        case Err(e) => Exchanged(Err(e), [first, second])
        case Ok(m2) => Exchanged(Ok(m2.answer), [first, second])
      else Exchanged(Ok(m.answer), [first])
  }

  // ---------------------------------------------------------------------------
  // getDNSRecords: answers to strings, following CNAMEs
  // ---------------------------------------------------------------------------

  /** The strings one non-alias answer contributes. */
  function AnswerStrings(d: RData): (s: seq<string>)
    ensures d.TXT? ==> s == d.txt
    ensures d.A? || d.AAAA? || d.MX? || d.NS? ==> |s| == 1
    ensures d.CNAME? || d.Unknown? ==> s == []
  {
    match d
    case A(a) => [a]
    case AAAA(a) => [a]
    case MX(m) => [m]
    case NS(n) => [n]
    case TXT(t) => t
    case CNAME(_) => []
    case Unknown => []
  }

  /** An answer the code resolves recursively: CNAME in the header and CNAME data. */
  predicate IsAlias(a: RR) {
    a.rrtype == TypeCNAME && a.data.CNAME?
  }

  /** Error text for a failed recursive lookup. */
  function AliasError(target: string, e: string): string {
    "failed to recursively lookup txt record for " + target + ": " + e
  }

  /** Two partial results in answer order: the first error wins, otherwise the lists are joined. */
  function Splice(x: Result<seq<string>, string>, y: Result<seq<string>, string>): Result<seq<string>, string> {
    match x
    case Err(e) => Err(e)
    case Ok(a) =>
      match y
      case Err(e) => Err(e)
      case Ok(b) => Ok(a + b)
  }

  /** The records of `domain` for type `qtype` (getDNSRecords). */
  function Records(r: Resolver, domain: string, qtype: nat, fuel: nat): Result<seq<string>, string>
    decreases fuel, 1, 0
  {
    match GetDNSAnswers(r, domain, qtype).answers
    case Err(e) => Err(e)
    case Ok(ans) => RecordsOf(r, ans, qtype, fuel)
  }

  /** What the answers contribute, left to right. */
  function RecordsOf(r: Resolver, ans: seq<RR>, qtype: nat, fuel: nat): Result<seq<string>, string>
    decreases fuel, 0, |ans|
  {
    if |ans| == 0 then Ok([])
    else Splice(AnswerRecords(r, ans[0], qtype, fuel), RecordsOf(r, ans[1..], qtype, fuel))
  }

  /** What one answer contributes: the recursive lookup of an alias, or its own strings. */
  function AnswerRecords(r: Resolver, a: RR, qtype: nat, fuel: nat): Result<seq<string>, string>
    decreases fuel, 0, 0
  {
    if IsAlias(a) then
      if fuel == 0 then Err(FuelExhausted)
      else
        match Records(r, a.data.target, qtype, fuel - 1)
        case Err(e) => Err(AliasError(a.data.target, e))
        case Ok(sub) => Ok(sub)
    else Ok(AnswerStrings(a.data))
  }

  /** Splicing is associative, so answers can be grouped freely. */
  lemma SpliceAssoc(x: Result<seq<string>, string>, y: Result<seq<string>, string>, z: Result<seq<string>, string>)
    ensures Splice(Splice(x, y), z) == Splice(x, Splice(y, z))
  {
    if x.Ok? && y.Ok? && z.Ok? {
      assert (x.value + y.value) + z.value == x.value + (y.value + z.value);
    }
  }

  /**
    CNAME flattening splices in answer order: the records of a concatenation
    of answer lists are the records of the first list followed by those of the
    second, and an error in either makes the whole an error (the first one wins).
   */
  lemma {:induction false} RecordsOfConcat(r: Resolver, a: seq<RR>, b: seq<RR>, qtype: nat, fuel: nat)
    ensures RecordsOf(r, a + b, qtype, fuel) == Splice(RecordsOf(r, a, qtype, fuel), RecordsOf(r, b, qtype, fuel))
    decreases |a|
  {
    if |a| == 0 {
      assert a + b == b;
      var y := RecordsOf(r, b, qtype, fuel);
      if y.Ok? { assert [] + y.value == y.value; }
    } else {
      assert (a + b)[0] == a[0];
      assert (a + b)[1..] == a[1..] + b;
      RecordsOfConcat(r, a[1..], b, qtype, fuel);
      SpliceAssoc(AnswerRecords(r, a[0], qtype, fuel), RecordsOf(r, a[1..], qtype, fuel), RecordsOf(r, b, qtype, fuel));
    }
  }

  /** One answer on its own contributes what AnswerRecords says. */
  lemma RecordsOfSingle(r: Resolver, a: RR, qtype: nat, fuel: nat)
    ensures RecordsOf(r, [a], qtype, fuel) == AnswerRecords(r, a, qtype, fuel)
  {
    assert [a][1..] == [];
    var x := AnswerRecords(r, a, qtype, fuel);
    if x.Ok? { assert x.value + [] == x.value; }
  }

  /** Without aliases, every answer contributes its own strings, in order. */
  function Flatten(ans: seq<RR>): seq<string>
    decreases |ans|
  {
    if |ans| == 0 then [] else AnswerStrings(ans[0].data) + Flatten(ans[1..])
  }

  lemma {:induction false} RecordsOfWithoutAliases(r: Resolver, ans: seq<RR>, qtype: nat, fuel: nat)
    requires forall i :: 0 <= i < |ans| ==> !IsAlias(ans[i])
    ensures RecordsOf(r, ans, qtype, fuel) == Ok(Flatten(ans))
    decreases |ans|
  {
    if |ans| > 0 {
      RecordsOfWithoutAliases(r, ans[1..], qtype, fuel);
    }
  }

  /** If the recursive lookup of any alias answer fails, the whole lookup fails and yields no records. */
  lemma RecordsOfFailingAlias(r: Resolver, ans: seq<RR>, k: nat, qtype: nat, fuel: nat)
    requires k < |ans| && IsAlias(ans[k])
    requires fuel == 0 || Records(r, ans[k].data.target, qtype, fuel - 1).Err?
    ensures RecordsOf(r, ans, qtype, fuel).Err?
  {
    assert ans == ans[..k] + ([ans[k]] + ans[k + 1..]);
    RecordsOfConcat(r, ans[..k], [ans[k]] + ans[k + 1..], qtype, fuel);
    RecordsOfConcat(r, [ans[k]], ans[k + 1..], qtype, fuel);
    RecordsOfSingle(r, ans[k], qtype, fuel);
  }

  /**
    getDNSRecords: the answers of the query, with every CNAME answer replaced
    by the records of its target for the same type.
   */
  method QueryRecords(r: Resolver, domain: string, qtype: nat, fuel: nat) returns (res: Result<seq<string>, string>)
    ensures res == Records(r, domain, qtype, fuel)
    decreases fuel, 1
  {
    var answers := GetDNSAnswers(r, domain, qtype).answers;
    if answers.Err? {
      return Err(answers.error);
    }
    var ans := answers.value;
    var records: seq<string> := [];
    var i := 0;
    while i < |ans|
      invariant 0 <= i <= |ans|
      invariant RecordsOf(r, ans[..i], qtype, fuel) == Ok(records)
    {
      var a := ans[i];
      assert ans[..i + 1] == ans[..i] + [a];
      RecordsOfConcat(r, ans[..i], [a], qtype, fuel);
      RecordsOfSingle(r, a, qtype, fuel);
      if IsAlias(a) {
        if fuel == 0 {
          RecordsOfFailingAlias(r, ans, i, qtype, fuel);
          RecordsOfConcat(r, ans[..i + 1], ans[i + 1..], qtype, fuel);
          assert ans == ans[..i + 1] + ans[i + 1..];
          return Err(FuelExhausted);
        }
        var sub := QueryRecords(r, a.data.target, qtype, fuel - 1);
        if sub.Err? {
          RecordsOfConcat(r, ans[..i + 1], ans[i + 1..], qtype, fuel);
          assert ans == ans[..i + 1] + ans[i + 1..];
          return Err(AliasError(a.data.target, sub.error));
        }
        records := records + sub.value;
      } else {
        records := records + AnswerStrings(a.data);
      }
      i := i + 1;
    }
    assert ans[..i] == ans;
    return Ok(records);
  }

  // ---------------------------------------------------------------------------
  // TXT reassembly and the first-match search over candidate names
  // ---------------------------------------------------------------------------

  /**
    A TXT record split over several strings: the record is the concatenation,
    without separator, of the strings from the first one carrying the prefix.
   */
  function Reassemble(records: seq<string>, prefix: string): (v: Option<string>)
    ensures v.None? <==> forall j :: 0 <= j < |records| ==> !HasPrefix(records[j], prefix)
    ensures v.Some? ==> exists i :: (0 <= i < |records| && HasPrefix(records[i], prefix)
      && (forall j :: 0 <= j < i ==> !HasPrefix(records[j], prefix))
      && v.value == Join(records[i..], ""))
  {
    var i := FirstPrefixed(records, prefix);
    if i < 0 then None else Some(Join(records[i..], ""))
  }

  /** The first candidate name whose TXT records hold a prefixed record; a lookup error ends the search with "". */
  function SearchNames(r: Resolver, names: seq<string>, prefix: string, fuel: nat): string
    decreases |names|
  {
    if |names| == 0 then ""
    else
      match Records(r, names[0], TypeTXT, fuel)
      case Err(_) => ""
      case Ok(records) =>
        match Reassemble(records, prefix)
        case Some(v) => v
        case None => SearchNames(r, names[1..], prefix, fuel)
  }

  /** Every candidate before `k` was looked up without error and held no prefixed record. */
  predicate NoMatchBefore(r: Resolver, names: seq<string>, prefix: string, fuel: nat, k: nat)
    requires k <= |names|
  {
    forall j :: 0 <= j < k ==>
      Records(r, names[j], TypeTXT, fuel).Ok? && Reassemble(Records(r, names[j], TypeTXT, fuel).value, prefix).None?
  }

  /** The first name with a match wins. */
  lemma {:induction false} SearchNamesFound(r: Resolver, names: seq<string>, prefix: string, fuel: nat, k: nat)
    requires k < |names| && NoMatchBefore(r, names, prefix, fuel, k)
    requires Records(r, names[k], TypeTXT, fuel).Ok?
    requires Reassemble(Records(r, names[k], TypeTXT, fuel).value, prefix).Some?
    ensures SearchNames(r, names, prefix, fuel) == Reassemble(Records(r, names[k], TypeTXT, fuel).value, prefix).value
    decreases k
  {
    if k > 0 {
      assert NoMatchBefore(r, names[1..], prefix, fuel, k - 1) by {
        forall j | 0 <= j < k - 1 ensures names[1..][j] == names[j + 1] { }
      }
      SearchNamesFound(r, names[1..], prefix, fuel, k - 1);
    }
  }

  /** A lookup error on a candidate, before any match, ends the search with the empty record. */
  lemma {:induction false} SearchNamesStops(r: Resolver, names: seq<string>, prefix: string, fuel: nat, k: nat)
    requires k < |names| && NoMatchBefore(r, names, prefix, fuel, k)
    requires Records(r, names[k], TypeTXT, fuel).Err?
    ensures SearchNames(r, names, prefix, fuel) == ""
    decreases k
  {
    if k > 0 {
      assert NoMatchBefore(r, names[1..], prefix, fuel, k - 1) by {
        forall j | 0 <= j < k - 1 ensures names[1..][j] == names[j + 1] { }
      }
      SearchNamesStops(r, names[1..], prefix, fuel, k - 1);
    }
  }

  /** No candidate matching gives the empty record. */
  lemma {:induction false} SearchNamesNone(r: Resolver, names: seq<string>, prefix: string, fuel: nat)
    requires NoMatchBefore(r, names, prefix, fuel, |names|)
    ensures SearchNames(r, names, prefix, fuel) == ""
    decreases |names|
  {
    if |names| > 0 {
      assert NoMatchBefore(r, names[1..], prefix, fuel, |names| - 1) by {
        forall j | 0 <= j < |names| - 1 ensures names[1..][j] == names[j + 1] { }
      }
      SearchNamesNone(r, names[1..], prefix, fuel);
    }
  }

  /** The loop shared by getTypeBIMI, getTypeDKIM and getTypeDMARC. */
  method FirstTxtMatch(r: Resolver, names: seq<string>, prefix: string, fuel: nat) returns (v: string)
    ensures v == SearchNames(r, names, prefix, fuel)
  {
    var n := 0;
    while n < |names|
      invariant 0 <= n <= |names|
      invariant SearchNames(r, names, prefix, fuel) == SearchNames(r, names[n..], prefix, fuel)
    {
      assert names[n..][1..] == names[n + 1..];
      var records := QueryRecords(r, names[n], TypeTXT, fuel);
      if records.Err? {
        return "";
      }
      var recs := records.value;
      var index := 0;
      while index < |recs|
        invariant 0 <= index <= |recs|
        invariant forall j :: 0 <= j < index ==> !HasPrefix(recs[j], prefix)
      {
        if HasPrefix(recs[index], prefix) {
          assert FirstPrefixed(recs, prefix) == index;
          return Join(recs[index..], "");
        }
        index := index + 1;
      }
      n := n + 1;
    }
    return "";
  }

  /** Candidate names for BIMI: the default selector's name, then the domain itself. */
  function BimiNames(domain: string): seq<string> {
    ["default._bimi." + domain, domain]
  }

  /** Candidate names for DMARC (RFC 7489 section 6.1): `_dmarc.<d>`, then the domain itself. */
  function DmarcNames(domain: string): seq<string> {
    ["_dmarc." + domain, domain]
  }

  /** Candidate names for DKIM (RFC 6376 section 3.6.2.1): caller selectors, then the known ones. */
  function DkimNames(selectors: seq<string>, domain: string): (names: seq<string>)
    ensures |names| == |selectors| + |KnownDkimSelectors|
    ensures forall i :: 0 <= i < |selectors| ==> names[i] == selectors[i] + "._domainkey." + domain
    ensures forall i :: 0 <= i < |KnownDkimSelectors| ==>
      names[|selectors| + i] == KnownDkimSelectors[i] + "._domainkey." + domain
  {
    var all := selectors + KnownDkimSelectors;
    seq(|all|, i requires 0 <= i < |all| => all[i] + "._domainkey." + domain)
  }

  /** getTypeBIMI: never an error. */
  method GetTypeBIMI(r: Resolver, domain: string, fuel: nat) returns (res: Result<string, string>)
    ensures res == Ok(SearchNames(r, BimiNames(domain), BIMIPrefix, fuel))
  {
    var v := FirstTxtMatch(r, BimiNames(domain), BIMIPrefix, fuel);
    return Ok(v);
  }

  /** getTypeDKIM: never an error. */
  method GetTypeDKIM(r: Resolver, domain: string, fuel: nat) returns (res: Result<string, string>)
    ensures res == Ok(SearchNames(r, DkimNames(r.dkimSelectors, domain), DKIMPrefix, fuel))
  {
    var v := FirstTxtMatch(r, DkimNames(r.dkimSelectors, domain), DKIMPrefix, fuel);
    return Ok(v);
  }

  /** getTypeDMARC: never an error. */
  method GetTypeDMARC(r: Resolver, domain: string, fuel: nat) returns (res: Result<string, string>)
    ensures res == Ok(SearchNames(r, DmarcNames(domain), DMARCPrefix, fuel))
  {
    var v := FirstTxtMatch(r, DmarcNames(domain), DMARCPrefix, fuel);
    return Ok(v);
  }

  /** The BIMI name under `default._bimi` is tried first; the domain's own TXT only when it has no BIMI record. */
  lemma BimiOrder(r: Resolver, domain: string, fuel: nat)
    ensures var first := Records(r, "default._bimi." + domain, TypeTXT, fuel);
      && (first.Err? ==> SearchNames(r, BimiNames(domain), BIMIPrefix, fuel) == "")
      && (first.Ok? && Reassemble(first.value, BIMIPrefix).Some? ==>
            SearchNames(r, BimiNames(domain), BIMIPrefix, fuel) == Reassemble(first.value, BIMIPrefix).value)
      && (first.Ok? && Reassemble(first.value, BIMIPrefix).None? ==>
            SearchNames(r, BimiNames(domain), BIMIPrefix, fuel) == SearchNames(r, [domain], BIMIPrefix, fuel))
  {
    assert BimiNames(domain)[1..] == [domain];
  }

  /** `_dmarc.<d>` is tried first; the domain's own TXT only when it has no DMARC record. */
  lemma DmarcOrder(r: Resolver, domain: string, fuel: nat)
    ensures var first := Records(r, "_dmarc." + domain, TypeTXT, fuel);
      && (first.Err? ==> SearchNames(r, DmarcNames(domain), DMARCPrefix, fuel) == "")
      && (first.Ok? && Reassemble(first.value, DMARCPrefix).Some? ==>
            SearchNames(r, DmarcNames(domain), DMARCPrefix, fuel) == Reassemble(first.value, DMARCPrefix).value)
      && (first.Ok? && Reassemble(first.value, DMARCPrefix).None? ==>
            SearchNames(r, DmarcNames(domain), DMARCPrefix, fuel) == SearchNames(r, [domain], DMARCPrefix, fuel))
  {
    assert DmarcNames(domain)[1..] == [domain];
  }

  // ---------------------------------------------------------------------------
  // getTypeSPF: the first SPF record, following redirect=
  // ---------------------------------------------------------------------------

  /** Index of the first field containing `needle`, or -1. */
  function FirstFieldWith(fields: seq<string>, needle: string): (k: int)
    ensures -1 <= k < |fields|
    ensures 0 <= k ==> Contains(fields[k], needle)
    ensures forall j :: 0 <= j < |fields| && (k < 0 || j < k) ==> !Contains(fields[j], needle)
    decreases |fields|
  {
    if |fields| == 0 then -1
    else if Contains(fields[0], needle) then 0
    else
      var j := FirstFieldWith(fields[1..], needle);
      if j < 0 then -1 else j + 1
  }

  /** The redirect target named by the first field containing `redirect=`. */
  function RedirectTarget(record: string, k: nat): string
    requires k < |Fields(record)|
  {
    TrimPrefix(Fields(record)[k], "redirect=")
  }

  /** getTypeSPF: the TXT lookup error is propagated. */
  function Spf(r: Resolver, domain: string, fuel: nat): Result<string, string>
    decreases fuel, 1, 0
  {
    match Records(r, domain, TypeTXT, fuel)
    case Err(e) => Err(e)
    case Ok(records) => SpfIn(r, records, fuel)
  }

  /** The SPF loop over the TXT strings of a domain. */
  function SpfIn(r: Resolver, records: seq<string>, fuel: nat): Result<string, string>
    decreases fuel, 0, |records|
  {
    if |records| == 0 then Ok("")
    else
      var record := records[0];
      if !HasPrefix(record, SPFPrefix) then SpfIn(r, records[1..], fuel)
      else if !Contains(record, "redirect=") then Ok(record)
      else
        var k := FirstFieldWith(Fields(record), "redirect=");
        if k < 0 then SpfIn(r, records[1..], fuel)
        else if fuel == 0 then Err(FuelExhausted)
        else Spf(r, RedirectTarget(record, k), fuel - 1)
  }

  /** SPF passes a TXT lookup error through, unlike BIMI, DKIM and DMARC. */
  lemma SpfPropagatesError(r: Resolver, domain: string, fuel: nat)
    requires Records(r, domain, TypeTXT, fuel).Err?
    ensures Spf(r, domain, fuel) == Err(Records(r, domain, TypeTXT, fuel).error)
  {
  }

  /** Records before the first SPF-prefixed one are skipped. */
  lemma {:induction false} SpfInSkips(r: Resolver, records: seq<string>, fuel: nat, i: nat)
    requires i <= |records|
    requires forall j :: 0 <= j < i ==> !HasPrefix(records[j], SPFPrefix)
    ensures SpfIn(r, records, fuel) == SpfIn(r, records[i..], fuel)
    decreases i
  {
    if i > 0 {
      assert records[1..][i - 1..] == records[i..];
      SpfInSkips(r, records[1..], fuel, i - 1);
    }
  }

  /** The first SPF record without `redirect=` is returned unchanged; no SPF record gives "". */
  lemma SpfFirstRecord(r: Resolver, records: seq<string>, fuel: nat)
    ensures var i := FirstPrefixed(records, SPFPrefix);
      && (i < 0 ==> SpfIn(r, records, fuel) == Ok(""))
      && (0 <= i && !Contains(records[i], "redirect=") ==> SpfIn(r, records, fuel) == Ok(records[i]))
  {
    var i := FirstPrefixed(records, SPFPrefix);
    if i < 0 {
      SpfInSkips(r, records, fuel, |records|);
    } else {
      SpfInSkips(r, records, fuel, i);
    }
  }

  /** "redirect=" holds no space, so it lies within one field. */
  lemma RedirectIsWord()
    ensures WordBy("redirect=", IsSpace)
  {
    var w := "redirect=";
    forall j | 0 <= j < |w|
      ensures !IsSpace(w[j])
    {
      assert w[j] == '=' || 'a' <= w[j] <= 'z';
    }
  }

  /**
    An SPF record with `redirect=` is replaced by the SPF of the text after
    `redirect=` in the first field containing it; no `all` mechanism is consulted.
   */
  lemma SpfRedirect(r: Resolver, records: seq<string>, fuel: nat)
    requires 0 < fuel
    requires 0 <= FirstPrefixed(records, SPFPrefix)
    requires Contains(records[FirstPrefixed(records, SPFPrefix)], "redirect=")
    ensures var rec := records[FirstPrefixed(records, SPFPrefix)];
      var k := FirstFieldWith(Fields(rec), "redirect=");
      0 <= k && SpfIn(r, records, fuel) == Spf(r, RedirectTarget(rec, k), fuel - 1)
  {
    var i := FirstPrefixed(records, SPFPrefix);
    SpfInSkips(r, records, fuel, i);
    var rec := records[i];
    assert records[i..][0] == rec;
    ContainsOccurs(rec, "redirect=");
    var p :| OccursAt(rec, "redirect=", p);
    RedirectIsWord();
    var k, o := FieldsKeepWord(rec, IsSpace, "redirect=", p);
    OccursContains(Fields(rec)[k], "redirect=", o);
  }

  /** The loop of getTypeSPF over the fields of a record: the first one containing `needle`. */
  method FindField(fields: seq<string>, needle: string) returns (k: int)
    ensures k == FirstFieldWith(fields, needle)
  {
    k := 0;
    while k < |fields|
      invariant 0 <= k <= |fields|
      invariant var rest := FirstFieldWith(fields[k..], needle);
        FirstFieldWith(fields, needle) == if rest < 0 then -1 else k + rest
    {
      assert fields[k..][1..] == fields[k + 1..];
      if Contains(fields[k], needle) {
        return;
      }
      k := k + 1;
    }
    return -1;
  }

  /** getTypeSPF, with its loops over records and fields. */
  method GetTypeSPF(r: Resolver, domain: string, fuel: nat) returns (res: Result<string, string>)
    ensures res == Spf(r, domain, fuel)
    decreases fuel
  {
    var lookup := QueryRecords(r, domain, TypeTXT, fuel);
    if lookup.Err? {
      return Err(lookup.error);
    }
    var records := lookup.value;
    var i := 0;
    while i < |records|
      invariant 0 <= i <= |records|
      invariant SpfIn(r, records, fuel) == SpfIn(r, records[i..], fuel)
    {
      assert records[i..][1..] == records[i + 1..];
      var record := records[i];
      if HasPrefix(record, SPFPrefix) {
        if !Contains(record, "redirect=") {
          return Ok(record);
        }
        var parts := Fields(record);
        var p := FindField(parts, "redirect=");
        if 0 <= p {
          if fuel == 0 {
            return Err(FuelExhausted);
          }
          res := GetTypeSPF(r, TrimPrefix(parts[p], "redirect="), fuel - 1);
          return;
        }
      }
      i := i + 1;
    }
    return Ok("");
  }

  // ---------------------------------------------------------------------------
  // GetDNSRecords: the record-type dispatcher
  // ---------------------------------------------------------------------------

  /** The fields of a scan result that the dispatcher writes. */
  datatype ScanRecord = ScanRecord(
    domain: string, bimi: string, dkim: string, dmarc: string,
    mx: seq<string>, ns: seq<string>, spf: string)

  /** The result after one type, and the error that stops the dispatcher, if any. */
  datatype Filled = Filled(rec: ScanRecord, err: Option<string>)

  function ErrorOf<T>(x: Result<T, string>): Option<string> {
    if x.Err? then Some(x.error) else None
  }

  /** One type name, compared case-insensitively. */
  function FillType(r: Resolver, rec: ScanRecord, recordType: string, fuel: nat): (f: Filled)
    ensures var t := ToUpper(recordType);
      && (t !in {"BIMI", "DKIM", "DMARC", "MX", "NS", "SPF"} ==> f == Filled(rec, Some(InvalidRecordType)))
      && (t == "BIMI" ==> f == Filled(rec.(bimi := SearchNames(r, BimiNames(rec.domain), BIMIPrefix, fuel)), None))
      && (t == "DKIM" ==> f == Filled(rec.(dkim := SearchNames(r, DkimNames(r.dkimSelectors, rec.domain), DKIMPrefix, fuel)), None))
      && (t == "DMARC" ==> f == Filled(rec.(dmarc := SearchNames(r, DmarcNames(rec.domain), DMARCPrefix, fuel)), None))
      && (t == "MX" ==> var x := Records(r, rec.domain, TypeMX, fuel);
            f.err == ErrorOf(x) && f.rec == rec.(mx := if x.Ok? then x.value else []))
      && (t == "NS" ==> var x := Records(r, rec.domain, TypeNS, fuel);
            f.err == ErrorOf(x) && f.rec == rec.(ns := if x.Ok? then x.value else []))
      && (t == "SPF" ==> var x := Spf(r, rec.domain, fuel);
            f.err == ErrorOf(x) && f.rec == rec.(spf := if x.Ok? then x.value else ""))
  {
    match ToUpper(recordType)
    case "BIMI" => Filled(rec.(bimi := SearchNames(r, BimiNames(rec.domain), BIMIPrefix, fuel)), None)
    case "DKIM" => Filled(rec.(dkim := SearchNames(r, DkimNames(r.dkimSelectors, rec.domain), DKIMPrefix, fuel)), None)
    case "DMARC" => Filled(rec.(dmarc := SearchNames(r, DmarcNames(rec.domain), DMARCPrefix, fuel)), None)
    case "MX" =>
      var x := Records(r, rec.domain, TypeMX, fuel);
      Filled(rec.(mx := if x.Ok? then x.value else []), ErrorOf(x))
    case "NS" =>
      var x := Records(r, rec.domain, TypeNS, fuel);
      Filled(rec.(ns := if x.Ok? then x.value else []), ErrorOf(x))
    case "SPF" =>
      var x := Spf(r, rec.domain, fuel);
      Filled(rec.(spf := if x.Ok? then x.value else ""), ErrorOf(x))
    case _ => Filled(rec, Some(InvalidRecordType))
  }

  /** The types in order, stopping at the first one that fails. */
  function Dispatch(r: Resolver, rec: ScanRecord, types: seq<string>, fuel: nat): Filled
    decreases |types|
  {
    if |types| == 0 then Filled(rec, None)
    else
      var f := FillType(r, rec, types[0], fuel);
      if f.err.Some? then f else Dispatch(r, f.rec, types[1..], fuel)
  }

  /** The dispatcher stops at the first failing type: later types are not looked at. */
  lemma {:induction false} DispatchConcat(r: Resolver, rec: ScanRecord, a: seq<string>, b: seq<string>, fuel: nat)
    ensures var fa := Dispatch(r, rec, a, fuel);
      Dispatch(r, rec, a + b, fuel) == if fa.err.Some? then fa else Dispatch(r, fa.rec, b, fuel)
    decreases |a|
  {
    if |a| == 0 {
      assert a + b == b;
    } else {
      assert (a + b)[0] == a[0] && (a + b)[1..] == a[1..] + b;
      var f := FillType(r, rec, a[0], fuel);
      if f.err.None? {
        DispatchConcat(r, f.rec, a[1..], b, fuel);
      }
    }
  }

  /** The domain is never rewritten by the dispatcher. */
  lemma {:induction false} DispatchKeepsDomain(r: Resolver, rec: ScanRecord, types: seq<string>, fuel: nat)
    ensures Dispatch(r, rec, types, fuel).rec.domain == rec.domain
    decreases |types|
  {
    if |types| > 0 {
      var f := FillType(r, rec, types[0], fuel);
      if f.err.None? {
        DispatchKeepsDomain(r, f.rec, types[1..], fuel);
      }
    }
  }

  /** The body of the dispatcher's loop for one type name. */
  method FillOne(r: Resolver, rec: ScanRecord, recordType: string, fuel: nat) returns (out: ScanRecord, err: Option<string>)
    ensures Filled(out, err) == FillType(r, rec, recordType, fuel)
  {
    var t := ToUpper(recordType);
    out, err := rec, None;
    if t == "BIMI" {
      var x := GetTypeBIMI(r, rec.domain, fuel);
      out := rec.(bimi := x.value);
    } else if t == "DKIM" {
      var x := GetTypeDKIM(r, rec.domain, fuel);
      out := rec.(dkim := x.value);
    } else if t == "DMARC" {
      var x := GetTypeDMARC(r, rec.domain, fuel);
      out := rec.(dmarc := x.value);
    } else if t == "MX" {
      var x := QueryRecords(r, rec.domain, TypeMX, fuel);
      out := rec.(mx := if x.Ok? then x.value else []);
      err := ErrorOf(x);
    } else if t == "NS" {
      var x := QueryRecords(r, rec.domain, TypeNS, fuel);
      out := rec.(ns := if x.Ok? then x.value else []);
      err := ErrorOf(x);
    } else if t == "SPF" {
      var x := GetTypeSPF(r, rec.domain, fuel);
      out := rec.(spf := if x.Ok? then x.value else "");
      err := ErrorOf(x);
    } else {
      err := Some(InvalidRecordType);
    }
  }

  /** GetDNSRecords: fills the result for each type in turn; the first error is returned. */
  method GetDNSRecords(r: Resolver, rec: ScanRecord, recordTypes: seq<string>, fuel: nat) returns (out: ScanRecord, err: Option<string>)
    ensures Filled(out, err) == Dispatch(r, rec, recordTypes, fuel)
  {
    out := rec;
    var i := 0;
    while i < |recordTypes|
      invariant 0 <= i <= |recordTypes|
      invariant Dispatch(r, rec, recordTypes, fuel) == Dispatch(r, out, recordTypes[i..], fuel)
    {
      assert recordTypes[i..][1..] == recordTypes[i + 1..];
      var e;
      out, e := FillOne(r, out, recordTypes[i], fuel);
      if e.Some? {
        return out, e;
      }
      i := i + 1;
    }
    return out, None;
  }

}

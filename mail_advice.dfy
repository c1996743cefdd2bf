/**
  The reply the mail responder assembles from a scan result: the advice
  entries of `domainAdvice` and the results table of `PrepareEmail`.
 */
module MailAdvice {
  import opened Strings
  import Mail
  import DomainAdvisor
  import PkgScanner

  /** A key and its text, as in a hermes.Entry. */
  datatype Entry = Entry(key: string, value: string)

  /** The parts of the hermes.Email body that PrepareEmail fills in; `table` is empty when no table is set. */
  datatype Email = Email(title: string, dictionary: seq<Entry>, signature: string, outros: seq<string>, table: seq<seq<Entry>>)

  const DkimDefault: string := "DKIM is setup for this email server. However, if you have other 3rd party systems, please send a test email to confirm DKIM is setup properly."
  const DmarcDefault: string := "You are at the highest level! Please make sure to continue reviewing the reports and make the appropriate adjustments, if needed."
  const MxDefault: string := "You have a multiple mail servers setup! No further action needed."
  const SpfDefault: string := "SPF seems to be setup correctly!"

  const Title: string := "Your email security scan results:"
  const Signature: string := "Thanks"
  const Outro: string := "For more information, visit our comprehensive mail security guide at https://dmarcguide.globalcyberalliance.org"

  /** A stringified advice, or the fixed text of its key when it is empty. */
  function OrDefault(val: string, default: string): (v: string)
    ensures val != "" ==> v == val
    ensures val == "" ==> v == default
  {
    if val == "" then default else val
  }

  /**
    The entries from the stringified advice of each check: the domain entry
    alone when it has any advice, otherwise the other four in the order
    DKIM, DMARC, MX, SPF, each with its default for no advice.
   */
  function Entries(domain: string, dkim: string, dmarc: string, mx: string, spf: string): (es: seq<Entry>)
    ensures domain != "" ==> es == [Entry("DOMAIN", domain)]
    ensures domain == "" ==>
      && |es| == 4
      && es[0].key == "DKIM" && es[1].key == "DMARC" && es[2].key == "MX" && es[3].key == "SPF"
    ensures domain == "" ==>
      && es[0].value == OrDefault(dkim, DkimDefault) && es[1].value == OrDefault(dmarc, DmarcDefault)
      && es[2].value == OrDefault(mx, MxDefault) && es[3].value == OrDefault(spf, SpfDefault)
  {
    if domain != "" then [Entry("DOMAIN", domain)]
    else [Entry("DKIM", OrDefault(dkim, DkimDefault)), Entry("DMARC", OrDefault(dmarc, DmarcDefault)),
      Entry("MX", OrDefault(mx, MxDefault)), Entry("SPF", OrDefault(spf, SpfDefault))]
  }

  /** The entries for the advice lists of the five checks. */
  function Advised(domain: seq<string>, dkim: seq<string>, dmarc: seq<string>, mx: seq<string>, spf: seq<string>): seq<Entry> {
    Entries(Mail.Stringified(domain), Mail.Stringified(dkim), Mail.Stringified(dmarc), Mail.Stringified(mx), Mail.Stringified(spf))
  }

  /** The entries of a scan result, from the domain advisor's checks. */
  function AdviceOf(result: PkgScanner.ScanResult, consumerDomains: set<string>): seq<Entry> {
    Advised(
      DomainAdvisor.CheckDomain(result.domain, consumerDomains),
      DomainAdvisor.CheckDKIM(result.dkim),
      DomainAdvisor.Texts(DomainAdvisor.DmarcLines(result.dmarc)),
      DomainAdvisor.CheckMX(result.mx),
      DomainAdvisor.CheckSPF(result.spf))
  }

  /** One advice list stringified, or the fixed text of its key when that is empty. */
  method StringifyOr(advice: seq<string>, default: string) returns (val: string)
    ensures val == OrDefault(Mail.Stringified(advice), default)
  {
    val := Mail.Stringify(advice);
    if val == "" {
      val := default;
    }
  }

  /** The body of domainAdvice after CheckAll: the entries from the advice map. */
  method EntriesFrom(advice: map<string, seq<string>>) returns (entries: seq<Entry>)
    requires advice.Keys == {"DKIM", "DMARC", "DOMAIN", "MX", "SPF"}
    ensures entries == Advised(advice["DOMAIN"], advice["DKIM"], advice["DMARC"], advice["MX"], advice["SPF"])
  {
    var val := Mail.Stringify(advice["DOMAIN"]);
    if val != "" {
      return [Entry("DOMAIN", val)];
    }
    entries := [];
    val := StringifyOr(advice["DKIM"], DkimDefault);
    entries := entries + [Entry("DKIM", val)];
    val := StringifyOr(advice["DMARC"], DmarcDefault);
    entries := entries + [Entry("DMARC", val)];
    val := StringifyOr(advice["MX"], MxDefault);
    entries := entries + [Entry("MX", val)];
    val := StringifyOr(advice["SPF"], SpfDefault);
    entries := entries + [Entry("SPF", val)];
  }

  /** domainAdvice: the checks through CheckAll, each advice list stringified. */
  method DomainAdvice(result: PkgScanner.ScanResult, consumerDomains: set<string>) returns (entries: seq<Entry>)
    ensures entries == AdviceOf(result, consumerDomains)
  {
    var advice := DomainAdvisor.CheckAll(result.dkim, result.dmarc, result.domain, consumerDomains, result.mx, result.spf);
    entries := EntriesFrom(advice);
  }

  /** The four rows of the results table: each test with its result, the servers one per line. */
  function ResultTable(dkim: string, dmarc: string, mailServers: string, spf: string): seq<seq<Entry>> {
    [[Entry("Test", "DKIM"), Entry("Result", dkim)],
     [Entry("Test", "DMARC"), Entry("Result", dmarc)],
     [Entry("Test", "MX"), Entry("Result", mailServers)],
     [Entry("Test", "SPF"), Entry("Result", spf)]]
  }

  /**
    PrepareEmail: the body with the advice entries, and the results table
    only when the first entry is not the domain entry.
   */
  method PrepareEmail(result: PkgScanner.ScanResult, consumerDomains: set<string>) returns (email: Email)
    ensures email.dictionary == AdviceOf(result, consumerDomains)
    ensures email.title == Title && email.signature == Signature && email.outros == [Outro]
    ensures email.table ==
      if AdviceOf(result, consumerDomains)[0].key != "DOMAIN"
      then ResultTable(result.dkim, result.dmarc, Mail.Stringified(result.mx), result.spf)
      else []
  {
    var entries := DomainAdvice(result, consumerDomains);
    email := Email(Title, entries, Signature, [Outro], []);
    if entries[0].key != "DOMAIN" {
      // the same accumulation as stringify, over the mail servers
      var mailServers := Mail.Stringify(result.mx);
      email := email.(table := ResultTable(result.dkim, result.dmarc, mailServers, result.spf));
    }
  }

  /** Stringified advice is empty exactly when every line the check raised has an empty wording. */
  lemma StringifiedLines(ls: seq<DomainAdvisor.Line>)
    ensures Mail.Stringified(DomainAdvisor.Texts(ls)) == "" <==>
      forall i :: 0 <= i < |ls| ==> DomainAdvisor.Text(ls[i]) == ""
  {
    var ts := DomainAdvisor.Texts(ls);
    Mail.StringifiedEmpty(ts);
    assert forall i :: 0 <= i < |ls| ==> ts[i] == DomainAdvisor.Text(ls[i]);
  }

  /** The advice of a check that raised a single line is that line's wording. */
  lemma SingleLine(ls: seq<DomainAdvisor.Line>)
    requires |ls| == 1
    ensures Mail.Stringified(DomainAdvisor.Texts(ls)) == DomainAdvisor.Text(ls[0])
  {
    assert DomainAdvisor.Texts(ls) == [DomainAdvisor.Text(ls[0])];
    Mail.StringifiedSingle(DomainAdvisor.Text(ls[0]));
  }

  /**
    The reply holds the domain entry, and only that, exactly for a consumer
    domain (whose wording is not empty); any other domain gets the four
    entries DKIM, DMARC, MX and SPF, in that order.
   */
  lemma DomainEntry(result: PkgScanner.ScanResult, consumerDomains: set<string>)
    ensures var es := AdviceOf(result, consumerDomains);
      es[0].key == "DOMAIN" <==> result.domain in consumerDomains && DomainAdvisor.Text(DomainAdvisor.Consumer) != ""
    ensures var es := AdviceOf(result, consumerDomains);
      es[0].key == "DOMAIN" ==> es == [Entry("DOMAIN", DomainAdvisor.Text(DomainAdvisor.Consumer))]
    ensures var es := AdviceOf(result, consumerDomains);
      result.domain !in consumerDomains ==>
        && |es| == 4
        && es[0].key == "DKIM" && es[1].key == "DMARC" && es[2].key == "MX" && es[3].key == "SPF"
  {
    var ls := DomainAdvisor.DomainLines(result.domain, consumerDomains);
    if result.domain in consumerDomains {
      assert ls == [DomainAdvisor.Consumer];
      SingleLine(ls);
    } else {
      assert ls == [];
    }
  }

  /** The DKIM entry of a non-consumer domain is the wording of the advisor's one DKIM line; with a record it is the default text. */
  lemma DkimEntry(result: PkgScanner.ScanResult, consumerDomains: set<string>)
    requires result.domain !in consumerDomains
    ensures AdviceOf(result, consumerDomains)[0].value ==
      OrDefault(DomainAdvisor.Text(DomainAdvisor.DkimLines(result.dkim)[0]), DkimDefault)
    ensures result.dkim != "" ==> AdviceOf(result, consumerDomains)[0].value == DkimDefault
    ensures result.dkim == "" ==>
      AdviceOf(result, consumerDomains)[0].value == OrDefault(DomainAdvisor.Text(DomainAdvisor.NoDkim), DkimDefault)
  {
    assert DomainAdvisor.DomainLines(result.domain, consumerDomains) == [];
    SingleLine(DomainAdvisor.DkimLines(result.dkim));
  }

  /** The DMARC entry of a non-consumer domain: the default without advice, the stringified advice when some line has a wording. */
  lemma DmarcEntry(result: PkgScanner.ScanResult, consumerDomains: set<string>)
    requires result.domain !in consumerDomains
    ensures var ls := DomainAdvisor.DmarcLines(result.dmarc);
      ls == [] ==> AdviceOf(result, consumerDomains)[1].value == DmarcDefault
    ensures var ls := DomainAdvisor.DmarcLines(result.dmarc);
      (exists i :: 0 <= i < |ls| && DomainAdvisor.Text(ls[i]) != "") ==>
        AdviceOf(result, consumerDomains)[1].value == Mail.Stringified(DomainAdvisor.Texts(ls))
  {
    assert DomainAdvisor.DomainLines(result.domain, consumerDomains) == [];
    StringifiedLines(DomainAdvisor.DmarcLines(result.dmarc));
  }

  /** The MX entry of a non-consumer domain: the default for two or more servers, otherwise the wording of the one MX line. */
  lemma MxEntry(result: PkgScanner.ScanResult, consumerDomains: set<string>)
    requires result.domain !in consumerDomains
    ensures |result.mx| >= 2 ==> AdviceOf(result, consumerDomains)[2].value == MxDefault
    ensures |result.mx| == 0 ==>
      AdviceOf(result, consumerDomains)[2].value == OrDefault(DomainAdvisor.Text(DomainAdvisor.NoMx), MxDefault)
    ensures |result.mx| == 1 ==>
      AdviceOf(result, consumerDomains)[2].value == OrDefault(DomainAdvisor.Text(DomainAdvisor.SingleMx), MxDefault)
  {
    assert DomainAdvisor.DomainLines(result.domain, consumerDomains) == [];
    var ls := DomainAdvisor.MxLines(result.mx);
    if |ls| == 1 {
      SingleLine(ls);
    }
  }

  /** The SPF entry of a non-consumer domain: the default when "all" is there and "+all" is not, otherwise the wording of the one SPF line. */
  lemma SpfEntry(result: PkgScanner.ScanResult, consumerDomains: set<string>)
    requires result.domain !in consumerDomains
    ensures var ls := DomainAdvisor.SpfLines(result.spf);
      ls == [] <==> Contains(result.spf, "all") && !Contains(result.spf, "+all")
    ensures var ls := DomainAdvisor.SpfLines(result.spf);
      ls == [] ==> AdviceOf(result, consumerDomains)[3].value == SpfDefault
    ensures var ls := DomainAdvisor.SpfLines(result.spf);
      ls != [] ==> AdviceOf(result, consumerDomains)[3].value == OrDefault(DomainAdvisor.Text(ls[0]), SpfDefault)
  {
    assert DomainAdvisor.DomainLines(result.domain, consumerDomains) == [];
    var ls := DomainAdvisor.SpfLines(result.spf);
    if |ls| == 1 {
      SingleLine(ls);
    }
  }

}

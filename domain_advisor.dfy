/**
  The older record advisor of pkg/domainadvisor/domainadvisor.go. Its DMARC
  check reads the ';'-separated segments by position rather than by key: the
  first must hold "v=DMARC1", the second a `p=` policy, and any later one
  holding "rua=" has its addresses checked, raising each of its two address
  lines at most once per segment. As in the record advisor, each line is a
  constructor of `Line` and `Text` is its wording.
 */
module DomainAdvisor {
  import opened Wrappers
  import opened Strings
  import opened Email

  /** Every line this advisor can give. */
  datatype Line =
    NoDkim | DkimOk | NoDmarc | DmarcMalformed | DmarcVersion | SecondTag
    | QuarantineReports | QuarantineNoReports | NoneReports | NoneNoReports | RejectReports | RejectNoReports
    | InvalidPolicy | RuaMailto | RuaAddress | Consumer | NoMx | SingleMx | NoSpf | SpfPlusAll | SpfNoAll

  /** The wording of each line, as the advisor returns it. */
  function Text(l: Line): string {
    match l
    case NoDkim => "We couldn't detect any active DKIM record for your domain. Please visit https://dmarcguide.globalcyberalliance.org to fix this."
    case DkimOk => "DKIM is setup for this email server. However, if you have other 3rd party systems, please send a test email to confirm DKIM is setup properly."
    case NoDmarc => "You do not have DMARC setup! Please visit https://dmarcguide.globalcyberalliance.org to set it up."
    case DmarcMalformed => "Your DMARC record appears to be malformed as no semicolons seem to be present."
    case DmarcVersion => "The beginning of your DMARC record should be v=DMARC1 with specific capitalization."
    case SecondTag => "The second tag in your DMARC record must be p=none/p=quarantine/p=reject."
    case QuarantineReports => "You are currently at the second level and receiving reports. Please make sure to review the reports, make the appropriate adjustments, and move to reject soon."
    case QuarantineNoReports => "You are currently at the second level. However, you must receive reports in order to determine if DKIM/DMARC/SPF are functioning correctly and move to the highest level (reject). Please add the \U{2018}rua\U{2019} tag to your DMARC policy."
    case NoneReports => "You are currently at the lowest level and receiving reports, which is a great starting point. Please make sure to review the reports, make the appropriate adjustments, and move to either quarantine or reject soon."
    case NoneNoReports => "You are currently at the lowest level, which is a great starting point. However, you must receive reports in order to determine if DKIM/DMARC/SPF are functioning correctly. Please add the \U{2018}rua\U{2019} tag to your DMARC policy."
    case RejectReports => "You are at the highest level! Please make sure to continue reviewing the reports and make the appropriate adjustments, if needed."
    case RejectNoReports => "You are at the highest level! However, we do recommend keeping reports enabled (via the rua tag) in case any issues may arise and you can review reports to see if DMARC is the cause."
    case InvalidPolicy => "Invalid DMARC policy specified, the record must be p=none/p=quarantine/p=reject."
    case RuaMailto => "Each email address under the rua tag should contain a mailto: prefix. Example: rua=mailto:dmarc@globalcyberalliance.org,mailto:dmarc2@globalcyberalliance.org."
    case RuaAddress => "Your rua tag contains invalid email addresses."
    case Consumer => "Consumer based accounts (i.e gmail.com, yahoo.com, etc) are controlled by the Vendor. They are responsible for setting DKIM, SPF and DMARC capabilities on their domains."
    case NoMx => "You do not have any mail servers setup, so you cannot receive email at this domain."
    case SingleMx => "You have a single mail server setup, but it's recommended that you have at least two setup in case the first one fails."
    case NoSpf => "We couldn't detect any active SPF record for your domain. Please visit https://dmarcguide.globalcyberalliance.org to fix this."
    case SpfPlusAll => "Your SPF record contains the +all tag. It is strongly recommended that this be changed to either -all or ~all. The +all tag allows for any system regardless of SPF to send mail on the organization\U{2019}s behalf."
    case SpfNoAll => "Your SPF record is missing the all tag. Please visit https://dmarcguide.globalcyberalliance.org to fix this."
  }

  /** The wordings of a list of lines, in order. */
  function Texts(ls: seq<Line>): seq<string> {
    seq(|ls|, i requires 0 <= i < |ls| => Text(ls[i]))
  }

  // ---------------------------------------------------------------------------
  // DKIM, domain, MX and SPF
  // ---------------------------------------------------------------------------

  /** CheckDKIM: one line, chosen by whether there is a record at all. */
  function DkimLines(dkim: string): (lines: seq<Line>)
    ensures |lines| == 1
    ensures lines[0] == NoDkim <==> dkim == ""
    ensures lines[0] == DkimOk <==> dkim != ""
  {
    if dkim == "" then [NoDkim] else [DkimOk]
  }

  /** CheckDomain; the consumer domain list is a parameter. */
  function DomainLines(domain: string, consumerDomains: set<string>): (lines: seq<Line>)
    ensures |lines| <= 1
    ensures Consumer in lines <==> domain in consumerDomains
  {
    if domain in consumerDomains then [Consumer] else []
  }

  /** CheckMX: a line for no server and one for a single server; two or more give no advice. */
  function MxLines(mx: seq<string>): (lines: seq<Line>)
    ensures |lines| <= 1
    ensures lines == [] <==> |mx| >= 2
    ensures NoMx in lines <==> |mx| == 0
    ensures SingleMx in lines <==> |mx| == 1
  {
    if |mx| == 0 then [NoMx]
    else if |mx| == 1 then [SingleMx]
    else []
  }

  /** CheckSPF: no advice exactly when the record has "all" but not "+all". */
  function SpfLines(spf: string): (lines: seq<Line>)
    ensures |lines| <= 1
    ensures lines == [] <==> Contains(spf, "all") && !Contains(spf, "+all")
    ensures NoSpf in lines <==> spf == ""
    ensures SpfPlusAll in lines <==> Contains(spf, "+all")
    ensures SpfNoAll in lines <==> spf != "" && !Contains(spf, "all")
  {
    PlusAllHasAll(spf);
    if spf == "" then [NoSpf]
    else if Contains(spf, "all") then
      if Contains(spf, "+all") then [SpfPlusAll] else []
    else [SpfNoAll]
  }

  /** "+all" holds "all". */
  lemma PlusAllHasAll(s: string)
    ensures Contains(s, "+all") ==> Contains(s, "all")
  {
    if Contains(s, "+all") {
      ContainsOccurs(s, "+all");
      var i :| OccursAt(s, "+all", i);
      assert s[i + 1..i + 4] == s[i..i + 4][1..];
      OccursContains(s, "all", i + 1);
    }
  }

  // ---------------------------------------------------------------------------
  // DMARC
  // ---------------------------------------------------------------------------

  predicate IsPolicy(v: string) {
    v == "none" || v == "quarantine" || v == "reject"
  }

  /** The seven lines the policy of the second segment can raise. */
  predicate IsPolicyLine(l: Line) {
    l in {QuarantineReports, QuarantineNoReports, NoneReports, NoneNoReports, RejectReports, RejectNoReports, InvalidPolicy}
  }

  /**
    The line for the policy of the second segment, by whether "rua=" occurs
    anywhere in the record: the invalid-policy line exactly for a policy
    other than the three, and otherwise a line that says whether reports
    are received.
   */
  function PolicyLine(policy: string, ruaExists: bool): (l: Line)
    ensures IsPolicyLine(l)
    ensures l == InvalidPolicy <==> !IsPolicy(policy)
    ensures l in {QuarantineReports, NoneReports, RejectReports} <==> IsPolicy(policy) && ruaExists
  {
    if policy == "quarantine" then (if ruaExists then QuarantineReports else QuarantineNoReports)
    else if policy == "none" then (if ruaExists then NoneReports else NoneNoReports)
    else if policy == "reject" then (if ruaExists then RejectReports else RejectNoReports)
    else InvalidPolicy
  }

  /** Some address of an rua segment lacks "mailto:" anywhere in it. */
  predicate MissingMailto(addresses: seq<string>) {
    exists j :: 0 <= j < |addresses| && !Contains(addresses[j], "mailto:")
  }

  /** Some address of an rua segment with "mailto:" is not an address once a leading "mailto:" is cut. */
  predicate InvalidAddress(addresses: seq<string>) {
    exists j :: 0 <= j < |addresses| && Contains(addresses[j], "mailto:") && !ValidateEmail(TrimPrefix(addresses[j], "mailto:"))
  }

  /** The lines of an rua segment: each flag gives its line once, the mailto one first. */
  function RuaLines(addresses: seq<string>): seq<Line> {
    (if MissingMailto(addresses) then [RuaMailto] else [])
    + (if InvalidAddress(addresses) then [RuaAddress] else [])
  }

  /** The first segment: the version line unless it holds "v=DMARC1". */
  function VersionLines(tag: string): (lines: seq<Line>)
    ensures DmarcVersion in lines <==> !Contains(tag, "v=DMARC1")
    ensures forall l :: l in lines ==> l == DmarcVersion
  {
    if Contains(tag, "v=DMARC1") then [] else [DmarcVersion]
  }

  /** The second segment: the line of the policy after a leading "p=", or the second-tag line. */
  function SecondLines(tag: string, ruaExists: bool): (lines: seq<Line>)
    ensures |lines| == 1
    ensures SecondTag in lines <==> !(Contains(tag, "p=") && !Contains(tag, "sp="))
    ensures forall l :: l in lines ==> l == SecondTag || IsPolicyLine(l)
  {
    if Contains(tag, "p=") && !Contains(tag, "sp=") then [PolicyLine(TrimPrefix(tag, "p="), ruaExists)]
    else [SecondTag]
  }

  /** A later segment: the address lines of an rua tag. */
  function LaterLines(tag: string): (lines: seq<Line>)
    ensures forall l :: l in lines ==> l == RuaMailto || l == RuaAddress
  {
    if Contains(tag, "rua=") then RuaLines(Split(TrimPrefix(tag, "rua="), ',')) else []
  }

  /** The lines of the segment at 1-based position `counter`, read space-trimmed. */
  function SegmentLines(counter: nat, segment: string, ruaExists: bool): seq<Line> {
    var tag := TrimSpace(segment);
    if counter == 1 then VersionLines(tag)
    else if counter == 2 then SecondLines(tag, ruaExists)
    else LaterLines(tag)
  }

  /** The segment at 0-based index `index` of a record that holds "rua=". */
  function SegmentWithRua(index: nat, segment: string): seq<Line> {
    SegmentLines(index + 1, segment, true)
  }

  /** The segment at 0-based index `index` of a record without "rua=". */
  function SegmentWithoutRua(index: nat, segment: string): seq<Line> {
    SegmentLines(index + 1, segment, false)
  }

  /** The segment loop on values: each segment in turn with its 1-based counter. */
  function AllSegmentLines(segments: seq<string>, ruaExists: bool): seq<Line> {
    ConcatIndexed(segments, if ruaExists then SegmentWithRua else SegmentWithoutRua)
  }

  /** CheckDMARC on values. */
  function DmarcLines(dmarc: string): seq<Line> {
    if |dmarc| == 0 then [NoDmarc]
    else if Contains(dmarc, ";") then AllSegmentLines(Split(dmarc, ';'), Contains(dmarc, "rua="))
    else [DmarcMalformed]
  }

  /** A missing record and a record without ';' each get exactly one line. */
  lemma DmarcWithoutSegments(dmarc: string)
    requires ';' !in dmarc
    ensures DmarcLines(dmarc) == if dmarc == "" then [NoDmarc] else [DmarcMalformed]
  {
    ContainsChar(dmarc, ';');
  }

  /** A line is in the advice of a record with a ';' exactly when one of its segments raises it. */
  lemma DmarcBySegment(dmarc: string, line: Line)
    requires ';' in dmarc
    ensures var segments := Split(dmarc, ';'); var ruaExists := Contains(dmarc, "rua=");
      line in DmarcLines(dmarc) <==>
        exists i :: 0 <= i < |segments| && line in SegmentLines(i + 1, segments[i], ruaExists)
  {
    ContainsChar(dmarc, ';');
    SegmentsIn(Split(dmarc, ';'), Contains(dmarc, "rua="), line);
  }

  /** The segment loop raises a line exactly when one of the segments does. */
  lemma SegmentsIn(segments: seq<string>, ruaExists: bool, line: Line)
    ensures line in AllSegmentLines(segments, ruaExists) <==>
      exists i :: 0 <= i < |segments| && line in SegmentLines(i + 1, segments[i], ruaExists)
  {
    if ruaExists {
      ConcatIndexedIn(segments, SegmentWithRua, line);
    } else {
      ConcatIndexedIn(segments, SegmentWithoutRua, line);
    }
  }

  /** Only the first segment raises the version line, when it lacks "v=DMARC1". */
  lemma VersionSegment(counter: nat, segment: string, ruaExists: bool)
    ensures DmarcVersion in SegmentLines(counter, segment, ruaExists) <==>
      counter == 1 && !Contains(TrimSpace(segment), "v=DMARC1")
  {
  }

  /**
    Only the second segment raises the second-tag line, when it lacks "p="
    or holds "sp="; otherwise it raises the line of its policy, the text
    after a leading "p=".
   */
  lemma PolicySegment(counter: nat, segment: string, ruaExists: bool)
    ensures var tag := TrimSpace(segment);
      SecondTag in SegmentLines(counter, segment, ruaExists) <==>
        counter == 2 && !(Contains(tag, "p=") && !Contains(tag, "sp="))
    ensures var tag := TrimSpace(segment);
      counter == 2 && Contains(tag, "p=") && !Contains(tag, "sp=") ==>
        SegmentLines(counter, segment, ruaExists) == [PolicyLine(TrimPrefix(tag, "p="), ruaExists)]
  {
  }

  /**
    A segment from the third on raises each address line at most once:
    the mailto line when some address lacks "mailto:", the address line
    when some address with it is not valid.
   */
  lemma RuaSegment(counter: nat, segment: string, ruaExists: bool)
    requires counter >= 3
    ensures var lines := SegmentLines(counter, segment, ruaExists);
      multiset(lines)[RuaMailto] <= 1 && multiset(lines)[RuaAddress] <= 1
    ensures var tag := TrimSpace(segment); var addresses := Split(TrimPrefix(tag, "rua="), ',');
      (RuaMailto in SegmentLines(counter, segment, ruaExists) <==> Contains(tag, "rua=") && MissingMailto(addresses))
      && (RuaAddress in SegmentLines(counter, segment, ruaExists) <==> Contains(tag, "rua=") && InvalidAddress(addresses))
  {
  }


  /** The version line is raised exactly when the first segment lacks "v=DMARC1". */
  lemma VersionLine(segments: seq<string>, ruaExists: bool)
    requires |segments| >= 1
    ensures DmarcVersion in AllSegmentLines(segments, ruaExists) <==> !Contains(TrimSpace(segments[0]), "v=DMARC1")
  {
    SegmentsIn(segments, ruaExists, DmarcVersion);
    forall i | 0 <= i < |segments|
      ensures DmarcVersion in SegmentLines(i + 1, segments[i], ruaExists) <==> i == 0 && !Contains(TrimSpace(segments[i]), "v=DMARC1")
    {
      VersionSegment(i + 1, segments[i], ruaExists);
    }
  }

  /** The second-tag line is raised exactly when there is a second segment without "p=", or with "sp=". */
  lemma SecondTagLine(segments: seq<string>, ruaExists: bool)
    ensures SecondTag in AllSegmentLines(segments, ruaExists) <==>
      |segments| >= 2 && !(Contains(TrimSpace(segments[1]), "p=") && !Contains(TrimSpace(segments[1]), "sp="))
  {
    SegmentsIn(segments, ruaExists, SecondTag);
    forall i | 0 <= i < |segments|
      ensures SecondTag in SegmentLines(i + 1, segments[i], ruaExists) <==>
        i == 1 && !(Contains(TrimSpace(segments[i]), "p=") && !Contains(TrimSpace(segments[i]), "sp="))
    {
      PolicySegment(i + 1, segments[i], ruaExists);
    }
  }

  /** The mailto line is raised exactly when a segment from the third on holds "rua=" with an address lacking "mailto:". */
  lemma MailtoLine(segments: seq<string>, ruaExists: bool)
    ensures RuaMailto in AllSegmentLines(segments, ruaExists) <==>
      exists i :: 2 <= i < |segments| && Contains(TrimSpace(segments[i]), "rua=")
        && MissingMailto(Split(TrimPrefix(TrimSpace(segments[i]), "rua="), ','))
  {
    SegmentsIn(segments, ruaExists, RuaMailto);
    forall i | 0 <= i < |segments|
      ensures RuaMailto in SegmentLines(i + 1, segments[i], ruaExists) <==>
        2 <= i && Contains(TrimSpace(segments[i]), "rua=") && MissingMailto(Split(TrimPrefix(TrimSpace(segments[i]), "rua="), ','))
    {
      if i >= 2 {
        RuaSegment(i + 1, segments[i], ruaExists);
      } else {
        EarlySegment(i + 1, segments[i], ruaExists);
      }
    }
  }

  /** The address line is raised exactly when a segment from the third on holds "rua=" with an invalid "mailto:" address. */
  lemma AddressLine(segments: seq<string>, ruaExists: bool)
    ensures RuaAddress in AllSegmentLines(segments, ruaExists) <==>
      exists i :: 2 <= i < |segments| && Contains(TrimSpace(segments[i]), "rua=")
        && InvalidAddress(Split(TrimPrefix(TrimSpace(segments[i]), "rua="), ','))
  {
    SegmentsIn(segments, ruaExists, RuaAddress);
    forall i | 0 <= i < |segments|
      ensures RuaAddress in SegmentLines(i + 1, segments[i], ruaExists) <==>
        2 <= i && Contains(TrimSpace(segments[i]), "rua=") && InvalidAddress(Split(TrimPrefix(TrimSpace(segments[i]), "rua="), ','))
    {
      if i >= 2 {
        RuaSegment(i + 1, segments[i], ruaExists);
      } else {
        EarlySegment(i + 1, segments[i], ruaExists);
      }
    }
  }

  /** The first two segments never raise the address lines. */
  lemma EarlySegment(counter: nat, segment: string, ruaExists: bool)
    requires 1 <= counter <= 2
    ensures RuaMailto !in SegmentLines(counter, segment, ruaExists)
    ensures RuaAddress !in SegmentLines(counter, segment, ruaExists)
  {
  }

  /** The address loop of an rua segment: its two flags. */
  method ScanAddresses(addresses: seq<string>) returns (missingMailto: bool, invalidAddress: bool)
    ensures missingMailto <==> MissingMailto(addresses)
    ensures invalidAddress <==> InvalidAddress(addresses)
  {
    missingMailto, invalidAddress := false, false;
    var j := 0;
    while j < |addresses|
      invariant 0 <= j <= |addresses|
      invariant missingMailto <==> MissingMailto(addresses[..j])
      invariant invalidAddress <==> InvalidAddress(addresses[..j])
    {
      var address := addresses[j];
      if !Contains(address, "mailto:") {
        missingMailto := true;
      } else {
        var trimmedAddress := TrimPrefix(address, "mailto:");
        if !ValidateEmail(trimmedAddress) {
          invalidAddress := true;
        }
      }
      TakeSnoc(addresses, j);
      FlagsSnoc(addresses[..j], address);
      j := j + 1;
    }
    assert addresses[..j] == addresses;
  }

  /** Each flag holds for a longer list exactly when it holds for the shorter one or for the new address. */
  lemma FlagsSnoc(addresses: seq<string>, a: string)
    ensures MissingMailto(addresses + [a]) <==> MissingMailto(addresses) || !Contains(a, "mailto:")
    ensures InvalidAddress(addresses + [a]) <==>
      InvalidAddress(addresses) || (Contains(a, "mailto:") && !ValidateEmail(TrimPrefix(a, "mailto:")))
  {
    var xs := addresses + [a];
    assert xs[|addresses|] == a;
    assert forall j :: 0 <= j < |addresses| ==> xs[j] == addresses[j];
  }

  /** The body of the segment loop: the switch on the counter. */
  method CheckSegment(counter: nat, segment: string, ruaExists: bool) returns (lines: seq<Line>)
    ensures lines == SegmentLines(counter, segment, ruaExists)
  {
    lines := [];
    var tag := TrimSpace(segment);
    if counter == 1 {
      if !Contains(tag, "v=DMARC1") {
        lines := lines + [DmarcVersion];
      }
    } else if counter == 2 {
      if Contains(tag, "p=") && !Contains(tag, "sp=") {
        lines := lines + [PolicyLine(TrimPrefix(tag, "p="), ruaExists)];
      } else {
        lines := lines + [SecondTag];
      }
    } else if Contains(tag, "rua=") {
      var missingMailto, invalidAddress := ScanAddresses(Split(TrimPrefix(tag, "rua="), ','));
      if missingMailto {
        lines := lines + [RuaMailto];
      }
      if invalidAddress {
        lines := lines + [RuaAddress];
      }
    }
  }

  /** The segment loop of CheckDMARC with its 1-based counter. */
  method CheckSegments(segments: seq<string>, ruaExists: bool) returns (lines: seq<Line>)
    ensures lines == AllSegmentLines(segments, ruaExists)
  {
    lines := [];
    var counter := 0;
    while counter < |segments|
      invariant 0 <= counter <= |segments|
      invariant lines == AllSegmentLines(segments[..counter], ruaExists)
    {
      lines := CheckNextSegment(segments, ruaExists, counter, lines);
      counter := counter + 1;
    }
    assert segments[..counter] == segments;
  }

  /** One turn of the segment loop: the segment at `index` with its counter `index + 1`. */
  method CheckNextSegment(segments: seq<string>, ruaExists: bool, index: nat, lines: seq<Line>) returns (next: seq<Line>)
    requires index < |segments|
    requires lines == AllSegmentLines(segments[..index], ruaExists)
    ensures next == AllSegmentLines(segments[..index + 1], ruaExists)
  {
    var more := CheckSegment(index + 1, segments[index], ruaExists);
    AllSegmentLinesTake(segments, ruaExists, index);
    next := lines + more;
  }

  /** One more segment adds its own lines at the end. */
  lemma AllSegmentLinesTake(segments: seq<string>, ruaExists: bool, i: nat)
    requires i < |segments|
    ensures AllSegmentLines(segments[..i + 1], ruaExists) ==
      AllSegmentLines(segments[..i], ruaExists) + SegmentLines(i + 1, segments[i], ruaExists)
  {
    if ruaExists {
      ConcatIndexedTake(segments, SegmentWithRua, i);
    } else {
      ConcatIndexedTake(segments, SegmentWithoutRua, i);
    }
  }

  /** CheckDMARC: a missing record, a record without ';', or the segment loop. */
  method CheckDMARC(dmarc: string) returns (advice: seq<string>)
    ensures advice == Texts(DmarcLines(dmarc))
  {
    if |dmarc| == 0 {
      return Texts([NoDmarc]);
    }
    if !Contains(dmarc, ";") {
      return Texts([DmarcMalformed]);
    }
    var lines := CheckSegments(Split(dmarc, ';'), Contains(dmarc, "rua="));
    return Texts(lines);
  }

  function CheckDKIM(dkim: string): seq<string> {
    Texts(DkimLines(dkim))
  }

  function CheckDomain(domain: string, consumerDomains: set<string>): seq<string> {
    Texts(DomainLines(domain, consumerDomains))
  }

  function CheckMX(mx: seq<string>): seq<string> {
    Texts(MxLines(mx))
  }

  function CheckSPF(spf: string): seq<string> {
    Texts(SpfLines(spf))
  }

  /** CheckAll: the advice of every check, by name; the consumer domain list is a parameter. */
  method CheckAll(dkim: string, dmarc: string, domain: string, consumerDomains: set<string>, mx: seq<string>, spf: string)
    returns (advice: map<string, seq<string>>)
    ensures advice.Keys == {"DKIM", "DMARC", "DOMAIN", "MX", "SPF"}
    ensures advice["DKIM"] == CheckDKIM(dkim)
    ensures advice["DMARC"] == Texts(DmarcLines(dmarc))
    ensures advice["DOMAIN"] == CheckDomain(domain, consumerDomains)
    ensures advice["MX"] == CheckMX(mx)
    ensures advice["SPF"] == CheckSPF(spf)
  {
    var dmarcAdvice := CheckDMARC(dmarc);
    advice := map["DKIM" := CheckDKIM(dkim), "DMARC" := dmarcAdvice, "DOMAIN" := CheckDomain(domain, consumerDomains),
      "MX" := CheckMX(mx), "SPF" := CheckSPF(spf)];
  }

}

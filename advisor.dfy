/**
  The record advisor of pkg/advisor/advisor.go: it reads the DKIM, DMARC
  and SPF records and the MX list a scan found and answers with a list of
  advice lines. Each line the advisor can give is a constructor of `Line`,
  and `Text` is its wording; the checks are stated on lines, and `Texts`
  turns them into the strings returned. DMARC records are read tag by tag
  (the tags of section 6.3 of RFC 7489) into a record value whose advice
  grows as tags are met. The TLS probes and the BIMI and domain checks are
  not modelled.
 */
module Advisor {
  import opened Wrappers
  import opened Strings
  import opened Strconv
  import opened Email

  /** Every line the advisor can give. */
  datatype Line =
    NoDkim | DkimVersion | DkimAlgorithm | DkimKey | DkimMalformed | DkimOk | NoDmarc
    | DmarcMalformed | DmarcVersion | SecondTag | QuarantineReports | QuarantineNoReports
    | NoneReports | NoneNoReports | RejectReports | RejectNoReports | InvalidPolicy
    | InvalidSubdomainPolicy | InvalidPercentage | AggregateMailto | AggregateEmail | ForensicMailto
    | ForensicEmail | InvalidFailureOptions | IntervalInteger | IntervalValue | SuggestRua
    | SuggestFo | SuggestRuf | SuggestSp | NoMx | SingleMx | MultipleMx | MultipleMxOk | NoSpf
    | SpfPlusAll | SpfNoAll | SpfOk | Tls10 | Tls11 | Tls12 | Tls13 | TlsUnknown

  /** The wording of each line, as the advisor returns it. */
  function Text(l: Line): string {
    match l
    case NoDkim => "We couldn't detect any active DKIM record for your domain. Please visit https://dmarcguide.globalcyberalliance.org to fix this."
    case DkimVersion => "The beginning of your DKIM record should be v=DKIM1 with specific capitalization."
    case DkimAlgorithm => "The second tag in your DKIM record must be k=rsa or a=rsa=sha256."
    case DkimKey => "The third tag in your DKIM record must be p=YOUR_KEY."
    case DkimMalformed => "Your DKIM record appears to be malformed as no semicolons seem to be present."
    case DkimOk => "DKIM is setup for this email server. However, if you have other 3rd party systems, please send a test email to confirm DKIM is setup properly."
    case NoDmarc => "You do not have DMARC setup!"
    case DmarcMalformed => "Your DMARC record appears to be malformed as no semicolons seem to be present."
    case DmarcVersion => "The beginning of your DMARC record should be v=DMARC1 with specific capitalization."
    case SecondTag => "The second tag in your DMARC record must be p=none/p=quarantine/p=reject."
    case QuarantineReports => "You are currently at the second level and receiving reports. Please make sure to review the reports, make the appropriate adjustments, and move to reject soon."
    case QuarantineNoReports => "You are currently at the second level. However, you must receive reports in order to determine if DKIM/DMARC/SPF are functioning correctly and move to the highest level (reject). Please add the \U{2018}rua\U{2019} tag to your DMARC policy."
    case NoneReports => "You are currently at the lowest level and receiving reports, which is a great starting point. Please make sure to review the reports, make the appropriate adjustments, and move to either quarantine or reject soon."
    case NoneNoReports => "You are currently at the lowest level, which is a great starting point. However, you must receive reports in order to determine if DKIM/DMARC/SPF are functioning correctly. Please add the \U{2018}rua\U{2019} tag to your DMARC policy."
    case RejectReports => "You are at the highest level! Please make sure to continue reviewing the reports and make the appropriate adjustments, if needed."
    case RejectNoReports => "You are at the highest level! However, we do recommend keeping reports enabled (via the rua tag) in case any issues may arise and you can review reports to see if DMARC is the cause."
    case InvalidPolicy => "Invalid DMARC policy specified, the record must be p=none/p=quarantine/p=reject."
    case InvalidSubdomainPolicy => "Invalid subdomain policy specified, the record must be sp=none/sp=quarantine/sp=reject."
    case InvalidPercentage => "Invalid report percentage specified, it must be between 0 and 100."
    case AggregateMailto => "Invalid aggregate report destination specified, it should begin with mailto:."
    case AggregateEmail => "Invalid aggregate report destination specified, it should be a valid email address."
    case ForensicMailto => "Invalid forensic report destination specified, it should begin with mailto:."
    case ForensicEmail => "Invalid forensic report destination specified, it should be a valid email address."
    case InvalidFailureOptions => "Invalid failure options specified, the record must be fo=0/fo=1/fo=d/fo=s."
    case IntervalInteger => "Invalid report interval specified, it must be a positive integer."
    case IntervalValue => "Invalid report interval specified, it must be a positive value."
    case SuggestRua => "Consider specifying a 'rua' tag for aggregate reporting."
    case SuggestFo => "Consider specifying an 'fo' tag to define the condition for generating failure reports. Default is '0' (report if both SPF and DKIM fail)."
    case SuggestRuf => "Consider specifying a 'ruf' tag for forensic reporting."
    case SuggestSp => "Subdomain policy isn't specified, they'll default to the main policy instead."
    case NoMx => "You do not have any mail servers setup, so you cannot receive email at this domain."
    case SingleMx => "You have a single mail server setup, but it's recommended that you have at least two setup in case the first one fails."
    case MultipleMx => "You have multiple mail servers setup, which is recommended."
    case MultipleMxOk => "You have a multiple mail servers setup! No further action needed."
    case NoSpf => "We couldn't detect any active SPF record for your domain. Please visit https://dmarcguide.globalcyberalliance.org to fix this."
    case SpfPlusAll => "Your SPF record contains the +all tag. It is strongly recommended that this be changed to either -all or ~all. The +all tag allows for any system regardless of SPF to send mail on the organization\U{2019}s behalf."
    case SpfNoAll => "Your SPF record is missing the all tag. Please visit https://dmarcguide.globalcyberalliance.org to fix this."
    case SpfOk => "SPF seems to be setup correctly! No further action needed."
    case Tls10 => "Your domain is using TLS version 1.0 which is outdated, and should be upgraded to TLS 1.3."
    case Tls11 => "Your domain is using TLS version 1.1 which is outdated, and should be upgraded to TLS 1.3."
    case Tls12 => "Your domain is using TLS version 1.2, and should be upgraded to TLS 1.3."
    case Tls13 => "Your domain is using TLS 1.3, no further action needed!"
    case TlsUnknown => "Your domain is using an unrecognized version of TLS, you should verify that it's using TLS 1.3 or above."
  }

  /** The wordings of a list of lines, in order. */
  function Texts(ls: seq<Line>): (ts: seq<string>)
    ensures |ts| == |ls| && forall i :: 0 <= i < |ls| ==> ts[i] == Text(ls[i])
  {
    seq(|ls|, i requires 0 <= i < |ls| => Text(ls[i]))
  }

  // ---------------------------------------------------------------------------
  // DKIM
  // ---------------------------------------------------------------------------

  /** The finding for the tag at `index`, read space-trimmed; only the first three tags are read. */
  function DkimTagLines(index: nat, tag: string): seq<Line> {
    var t := TrimSpace(tag);
    if index == 0 then (if Contains(t, "v=DKIM1") then [] else [DkimVersion])
    else if index == 1 then (if !Contains(t, "k=rsa") && !Contains(t, "a=rsa-sha256") then [DkimAlgorithm] else [])
    else if index == 2 then (if Contains(t, "p=") then [] else [DkimKey])
    else []
  }

  /** The findings of the tag loop over `tags`, in tag order. */
  function DkimTags(tags: seq<string>): seq<Line> {
    ConcatIndexed(tags, DkimTagLines)
  }

  /** CheckDKIM on values. */
  function DkimLines(dkim: string): seq<Line> {
    if dkim == "" then [NoDkim]
    else if Contains(dkim, ";") then DkimRecordLines(Split(dkim, ';'))
    else [DkimMalformed]
  }

  /** The advice for the tags of a record with a ';': the findings, or the "DKIM is setup" line when there are none. */
  function DkimRecordLines(tags: seq<string>): seq<Line> {
    var findings := DkimTags(tags);
    if |findings| == 0 then [DkimOk] else findings
  }

  /** Only the first three tags can raise a finding. */
  lemma DkimFirstThree(tags: seq<string>)
    requires |tags| >= 1
    ensures DkimTags(tags) ==
      DkimTagLines(0, tags[0])
      + (if |tags| > 1 then DkimTagLines(1, tags[1]) else [])
      + (if |tags| > 2 then DkimTagLines(2, tags[2]) else [])
  {
    forall i | 3 <= i < |tags|
      ensures DkimTagLines(i, tags[i]) == []
    {
    }
    ConcatIndexedFirstThree(tags, DkimTagLines);
  }

  /**
    A record that is present and has a ';' gets the single "DKIM is setup"
    line exactly when its first tag has v=DKIM1, its second names the RSA
    key or algorithm, and its third, if there is one, has p=; otherwise it
    gets the findings alone. The second tag always exists.
   */
  lemma DkimVerdict(dkim: string)
    requires ';' in dkim
    ensures var tags := Split(dkim, ';');
      |tags| >= 2 &&
      var ok := Contains(TrimSpace(tags[0]), "v=DKIM1")
        && (Contains(TrimSpace(tags[1]), "k=rsa") || Contains(TrimSpace(tags[1]), "a=rsa-sha256"))
        && (|tags| > 2 ==> Contains(TrimSpace(tags[2]), "p="));
      (ok ==> DkimLines(dkim) == [DkimOk]) && (!ok ==> DkimLines(dkim) == DkimTags(tags) && DkimOk !in DkimLines(dkim))
  {
    SplitParts(dkim, ';');
    ContainsChar(dkim, ';');
    DkimTagsVerdict(Split(dkim, ';'));
  }

  lemma DkimTagsVerdict(tags: seq<string>)
    requires |tags| >= 2
    ensures var ok := Contains(TrimSpace(tags[0]), "v=DKIM1")
        && (Contains(TrimSpace(tags[1]), "k=rsa") || Contains(TrimSpace(tags[1]), "a=rsa-sha256"))
        && (|tags| > 2 ==> Contains(TrimSpace(tags[2]), "p="));
      (ok ==> DkimRecordLines(tags) == [DkimOk]) && (!ok ==> DkimRecordLines(tags) == DkimTags(tags) && DkimOk !in DkimTags(tags))
  {
    DkimFirstThree(tags);
    var f0 := DkimTagLines(0, tags[0]);
    var f1 := DkimTagLines(1, tags[1]);
    var f2 := if |tags| > 2 then DkimTagLines(2, tags[2]) else [];
    assert DkimTags(tags) == f0 + f1 + f2;
    assert DkimOk !in f0 && DkimOk !in f1 && DkimOk !in f2;
  }



  /** A missing record and a record without ';' each get exactly one line. */
  lemma DkimWithoutTags(dkim: string)
    requires ';' !in dkim
    ensures DkimLines(dkim) == if dkim == "" then [NoDkim] else [DkimMalformed]
  {
    ContainsChar(dkim, ';');
  }

  /** The body of the tag loop of CheckDKIM. */
  method CheckDkimTag(index: nat, raw: string) returns (found: seq<Line>)
    ensures found == DkimTagLines(index, raw)
  {
    found := [];
    var tag := TrimSpace(raw);
    if index == 0 {
      if !Contains(tag, "v=DKIM1") {
        found := found + [DkimVersion];
      }
    } else if index == 1 {
      if !Contains(tag, "k=rsa") && !Contains(tag, "a=rsa-sha256") {
        found := found + [DkimAlgorithm];
      }
    } else if index == 2 {
      if !Contains(tag, "p=") {
        found := found + [DkimKey];
      }
    }
  }

  /** The loop of CheckDKIM. */
  method CheckDKIM(dkim: string) returns (advice: seq<string>)
    ensures advice == Texts(DkimLines(dkim))
  {
    if dkim == "" {
      return Texts([NoDkim]);
    }
    var lines: seq<Line> := [];
    if Contains(dkim, ";") {
      var tags := Split(dkim, ';');
      var index := 0;
      while index < |tags|
        invariant 0 <= index <= |tags|
        invariant lines == DkimTags(tags[..index])
      {
        var found := CheckDkimTag(index, tags[index]);
        lines := lines + found;
        ConcatIndexedTake(tags, DkimTagLines, index);
        index := index + 1;
      }
      assert tags[..index] == tags;
    } else {
      lines := lines + [DkimMalformed];
    }
    if |lines| == 0 {
      return Texts([DkimOk]);
    }
    return Texts(lines);
  }

  // ---------------------------------------------------------------------------
  // DMARC
  // ---------------------------------------------------------------------------

  /** The keys the tag switch tells apart; any other key is ignored. */
  datatype Key = V | P | SP | PCT | RUA | RUF | FO | ASPF | ADKIM | RI | Other

  function KeyOf(k: string): Key {
    if k == "v" then V
    else if k == "p" then P
    else if k == "sp" then SP
    else if k == "pct" then PCT
    else if k == "rua" then RUA
    else if k == "ruf" then RUF
    else if k == "fo" then FO
    else if k == "aspf" then ASPF
    else if k == "adkim" then ADKIM
    else if k == "ri" then RI
    else Other
  }

  /** The dmarc struct: the tag values read so far and the advice so far. */
  datatype Dmarc = Dmarc(
    version: string, policy: string, subdomainPolicy: string, percentage: int,
    aggregate: seq<string>, forensic: seq<string>, failureOptions: string,
    aspf: string, adkim: string, reportInterval: int, advice: seq<Line>)

  const EmptyDmarc := Dmarc("", "", "", 0, [], [], "", "", "", 0, [])

  /**
    strings.SplitN(strings.TrimSpace(part), "=", 2) when it has two pieces:
    the key before the first '=' and the value after it.
   */
  function KeyValue(part: string): Option<(Key, string)> {
    SplitTag(TrimSpace(part))
  }

  /** The split of trimmed text at its first '='. */
  function SplitTag(t: string): Option<(Key, string)> {
    var i := IndexOf(t, '=');
    if i < 0 then None else Some((KeyOf(t[..i]), t[i + 1..]))
  }

  /**
    Text has a tag exactly when it has an '='; the key is then the text
    before the first '=' and the value all the text after it.
   */
  lemma SplitTagParts(t: string)
    ensures SplitTag(t).None? <==> '=' !in t
    ensures SplitTag(t).Some? ==> var kv := SplitTag(t).value;
      exists k :: '=' !in k && t == k + "=" + kv.1 && kv.0 == KeyOf(k)
  {
    var i := IndexOf(t, '=');
    if 0 <= i {
      var k, v := t[..i], t[i + 1..];
      assert t == k + [t[i]] + v;
    }
  }

  predicate IsPolicy(v: string) {
    v == "none" || v == "quarantine" || v == "reject"
  }

  predicate IsFailureOption(v: string) {
    v == "0" || v == "1" || v == "d" || v == "s"
  }

  /** The line a `p` tag adds for its policy, by whether "rua=" occurs anywhere in the record. */
  function PolicyLine(policy: string, ruaExists: bool): Line {
    if policy == "quarantine" then (if ruaExists then QuarantineReports else QuarantineNoReports)
    else if policy == "none" then (if ruaExists then NoneReports else NoneNoReports)
    else if policy == "reject" then (if ruaExists then RejectReports else RejectNoReports)
    else InvalidPolicy
  }

  /** One aggregate destination: the two checks are independent. */
  function AggregateLines(d: string): seq<Line> {
    (if !HasPrefix(d, "mailto:") then [AggregateMailto] else [])
    + (if !ValidateEmail(TrimPrefix(d, "mailto:")) then [AggregateEmail] else [])
  }

  /** One forensic destination: without "mailto:" the address is not checked. */
  function ForensicLines(d: string): seq<Line> {
    if !HasPrefix(d, "mailto:") then [ForensicMailto]
    else if !ValidateEmail(TrimPrefix(d, "mailto:")) then [ForensicEmail]
    else []
  }

  /** The lines one destination adds. */
  function OneDestination(d: string, forensic: bool): seq<Line> {
    if forensic then ForensicLines(d) else AggregateLines(d)
  }

  /** The lines of the destinations of a rua tag (`forensic` false) or a ruf tag, in list order. */
  function DestinationLines(ds: seq<string>, forensic: bool): seq<Line> {
    ConcatIndexed(ds, (_: nat, d: string) => OneDestination(d, forensic))
  }

  /** The advice one tag `key=value` at position `index` adds. */
  function TagLines(index: nat, key: Key, value: string, ruaExists: bool): seq<Line> {
    match key
    case V => if index != 0 || value != "DMARC1" then [DmarcVersion] else []
    case P => (if index != 1 then [SecondTag] else []) + [PolicyLine(value, ruaExists)]
    case SP => if !IsPolicy(value) then [InvalidSubdomainPolicy] else []
    case PCT =>
      var p := Atoi(value);
      if p.err || p.value < 0 || p.value > 100 then [InvalidPercentage] else []
    case RUA => DestinationLines(Split(value, ','), false)
    case RUF => DestinationLines(Split(value, ','), true)
    case FO => if !IsFailureOption(value) then [InvalidFailureOptions] else []
    case RI =>
      var r := Atoi(value);
      (if r.err then [IntervalInteger] else []) + (if r.value < 0 then [IntervalValue] else [])
    case _ => []
  }

  /** The field one tag sets; a later tag with the same key overwrites an earlier one. */
  function SetField(rec: Dmarc, key: Key, value: string): Dmarc {
    match key
    case V => rec.(version := value)
    case P => rec.(policy := value)
    case SP => rec.(subdomainPolicy := value)
    case PCT => rec.(percentage := Atoi(value).value)
    case RUA => rec.(aggregate := Split(value, ','))
    case RUF => rec.(forensic := Split(value, ','))
    case FO => rec.(failureOptions := value)
    case ASPF => rec.(aspf := value)
    case ADKIM => rec.(adkim := value)
    case RI => rec.(reportInterval := Atoi(value).value)
    case Other => rec
  }

  /** A tag read from a part: its key and value, or none for a part without '='. */
  type Tag = Option<(Key, string)>

  /** The tags of the parts, one per part. */
  function Tags(parts: seq<string>): (tags: seq<Tag>)
    ensures |tags| == |parts|
    ensures forall i :: 0 <= i < |parts| ==> tags[i] == KeyValue(parts[i])
  {
    seq(|parts|, i requires 0 <= i < |parts| => KeyValue(parts[i]))
  }

  /** The tag has key `key`. */
  predicate Has(tag: Tag, key: Key) {
    tag.Some? && tag.value.0 == key
  }

  /** One iteration of the tag loop; a part without '=' is skipped. */
  function Step(rec: Dmarc, index: nat, tag: Tag, ruaExists: bool): Dmarc {
    match tag
    case None => rec
    case Some((key, value)) => SetField(rec, key, value).(advice := rec.advice + TagLines(index, key, value, ruaExists))
  }

  /** The record after the tag loop over `tags`. */
  function ReadTags(tags: seq<Tag>, ruaExists: bool): Dmarc
    decreases |tags|
  {
    if |tags| == 0 then EmptyDmarc
    else Step(ReadTags(tags[..|tags| - 1], ruaExists), |tags| - 1, tags[|tags| - 1], ruaExists)
  }

  /** The suggestions for tags left out, in their fixed order. */
  function Suggestions(rec: Dmarc): seq<Line> {
    (if |rec.aggregate| == 0 then [SuggestRua] else [])
    + (if rec.failureOptions == "" then [SuggestFo] else [])
    + (if |rec.forensic| == 0 then [SuggestRuf] else [])
    + (if rec.subdomainPolicy == "" then [SuggestSp] else [])
  }

  /** CheckDMARC on values. */
  function DmarcLines(record: string): seq<Line> {
    if record == "" then [NoDmarc]
    else if !Contains(record, ";") then [DmarcMalformed]
    else RecordLines(Tags(Split(record, ';')), Contains(record, "rua="))
  }

  /** The advice of a record with a ';': the tag loop's advice, then the suggestions. */
  function RecordLines(tags: seq<Tag>, ruaExists: bool): seq<Line> {
    var rec := ReadTags(tags, ruaExists);
    rec.advice + Suggestions(rec)
  }

  // The reference reading of a tag list: the advice of each tag on its own,
  // and the value of the last tag with a given key.

  /** The advice of the tag at `index` on its own. */
  function PartLines(index: nat, tag: Tag, ruaExists: bool): seq<Line> {
    match tag
    case None => []
    case Some((key, value)) => TagLines(index, key, value, ruaExists)
  }

  /** The advice of every tag, each on its own, in tag order. */
  function AllPartLines(tags: seq<Tag>, ruaExists: bool): seq<Line> {
    ConcatIndexed(tags, (i: nat, t: Tag) => PartLines(i, t, ruaExists))
  }

  /** The value of the last tag whose key is `key`. */
  function LastValue(tags: seq<Tag>, key: Key): Option<string>
    decreases |tags|
  {
    if |tags| == 0 then None
    else
      var t := tags[|tags| - 1];
      if Has(t, key) then Some(t.value.1) else LastValue(tags[..|tags| - 1], key)
  }

  /** The tag loop keeps each tag's advice as it stands. */
  lemma {:induction false} ReadTagsAdvice(tags: seq<Tag>, ruaExists: bool)
    ensures ReadTags(tags, ruaExists).advice == AllPartLines(tags, ruaExists)
    decreases |tags|
  {
    if |tags| > 0 {
      var n := |tags| - 1;
      ReadTagsAdvice(tags[..n], ruaExists);
      assert AllPartLines(tags, ruaExists) == AllPartLines(tags[..n], ruaExists) + PartLines(n, tags[n], ruaExists);
    }
  }

  /** The fo and sp fields hold the value of the last tag with their key. */
  lemma {:induction false} ReadTagsOptions(tags: seq<Tag>, ruaExists: bool)
    ensures var rec := ReadTags(tags, ruaExists);
      && rec.failureOptions == (if LastValue(tags, FO).Some? then LastValue(tags, FO).value else "")
      && rec.subdomainPolicy == (if LastValue(tags, SP).Some? then LastValue(tags, SP).value else "")
    decreases |tags|
  {
    if |tags| > 0 {
      ReadTagsOptions(tags[..|tags| - 1], ruaExists);
    }
  }

  /** The destination lists are empty exactly when no rua or ruf tag was read, as a split is never empty. */
  lemma {:induction false} ReadTagsDestinations(tags: seq<Tag>, ruaExists: bool)
    ensures var rec := ReadTags(tags, ruaExists);
      && (|rec.aggregate| == 0 <==> LastValue(tags, RUA).None?)
      && (|rec.forensic| == 0 <==> LastValue(tags, RUF).None?)
    decreases |tags|
  {
    if |tags| > 0 {
      ReadTagsDestinations(tags[..|tags| - 1], ruaExists);
    }
  }



  /**
    A record with a ';' gets the advice of each tag read on its own, in tag
    order, then the suggestions for a missing rua, fo, ruf and sp tag, in
    that order. The last fo or sp tag decides whether it counts as missing,
    and any rua or ruf tag at all, even an empty one, counts as present.
   */
  lemma DmarcShape(record: string)
    requires ';' in record
    ensures var tags := Tags(Split(record, ';'));
      DmarcLines(record) ==
        AllPartLines(tags, Contains(record, "rua="))
        + (if LastValue(tags, RUA).None? then [SuggestRua] else [])
        + (if LastValue(tags, FO) in {None, Some("")} then [SuggestFo] else [])
        + (if LastValue(tags, RUF).None? then [SuggestRuf] else [])
        + (if LastValue(tags, SP) in {None, Some("")} then [SuggestSp] else [])
  {
    ContainsChar(record, ';');
    RecordShape(Tags(Split(record, ';')), Contains(record, "rua="));
  }

  lemma RecordShape(tags: seq<Tag>, ruaExists: bool)
    ensures RecordLines(tags, ruaExists) ==
      AllPartLines(tags, ruaExists)
      + (if LastValue(tags, RUA).None? then [SuggestRua] else [])
      + (if LastValue(tags, FO) in {None, Some("")} then [SuggestFo] else [])
      + (if LastValue(tags, RUF).None? then [SuggestRuf] else [])
      + (if LastValue(tags, SP) in {None, Some("")} then [SuggestSp] else [])
  {
    ReadTagsAdvice(tags, ruaExists);
    MissingTags(tags, ruaExists);
  }

  /** The suggestions after the tag loop, by the last tag of each key. */
  lemma MissingTags(tags: seq<Tag>, ruaExists: bool)
    ensures Suggestions(ReadTags(tags, ruaExists)) ==
      (if LastValue(tags, RUA).None? then [SuggestRua] else [])
      + (if LastValue(tags, FO) in {None, Some("")} then [SuggestFo] else [])
      + (if LastValue(tags, RUF).None? then [SuggestRuf] else [])
      + (if LastValue(tags, SP) in {None, Some("")} then [SuggestSp] else [])
  {
    var rec := ReadTags(tags, ruaExists);
    ReadTagsOptions(tags, ruaExists);
    ReadTagsDestinations(tags, ruaExists);
    assert (|rec.aggregate| == 0) == LastValue(tags, RUA).None?;
    assert (rec.failureOptions == "") == (LastValue(tags, FO) in {None, Some("")});
    assert (|rec.forensic| == 0) == LastValue(tags, RUF).None?;
    assert (rec.subdomainPolicy == "") == (LastValue(tags, SP) in {None, Some("")});
  }

  /** A missing record and a record without ';' each get exactly one line. */
  lemma DmarcWithoutTags(record: string)
    requires ';' !in record
    ensures DmarcLines(record) == if record == "" then [NoDmarc] else [DmarcMalformed]
  {
    ContainsChar(record, ';');
  }

  lemma AllPartLinesIn(tags: seq<Tag>, ruaExists: bool, line: Line)
    ensures line in AllPartLines(tags, ruaExists) <==>
      exists i :: 0 <= i < |tags| && line in PartLines(i, tags[i], ruaExists)
  {
    ConcatIndexedIn(tags, (i: nat, t: Tag) => PartLines(i, t, ruaExists), line);
  }

  /** A line is in the destination lines exactly when some destination adds it. */
  lemma DestinationLinesIn(ds: seq<string>, forensic: bool, line: Line)
    ensures line in DestinationLines(ds, forensic) <==> exists j :: 0 <= j < |ds| && line in OneDestination(ds[j], forensic)
  {
    ConcatIndexedIn(ds, (_: nat, d: string) => OneDestination(d, forensic), line);
  }

  /** An aggregate destination: the mailto check and the address check are independent, and nothing else is raised. */
  lemma AggregateDestination(d: string)
    ensures forall l :: l in OneDestination(d, false) ==> l == AggregateMailto || l == AggregateEmail
    ensures AggregateMailto in OneDestination(d, false) <==> !HasPrefix(d, "mailto:")
    ensures AggregateEmail in OneDestination(d, false) <==> !MatchesEmail(TrimPrefix(d, "mailto:"))
  {
  }

  /** A forensic destination: the address is checked only after a "mailto:" prefix. */
  lemma ForensicDestination(d: string)
    ensures forall l :: l in OneDestination(d, true) ==> l == ForensicMailto || l == ForensicEmail
    ensures ForensicMailto in OneDestination(d, true) <==> !HasPrefix(d, "mailto:")
    ensures ForensicEmail in OneDestination(d, true) <==> HasPrefix(d, "mailto:") && !MatchesEmail(TrimPrefix(d, "mailto:"))
  {
  }

  /** The four lines only a rua or ruf tag can raise. */
  predicate IsDestinationLine(l: Line) {
    l == AggregateMailto || l == AggregateEmail || l == ForensicMailto || l == ForensicEmail
  }

  /** The destinations of a rua tag raise aggregate lines only, those of a ruf tag forensic ones only. */
  lemma DestinationLinesOnly(ds: seq<string>, forensic: bool)
    ensures forall l :: l in DestinationLines(ds, forensic) ==>
      if forensic then l == ForensicMailto || l == ForensicEmail else l == AggregateMailto || l == AggregateEmail
  {
    forall l | l in DestinationLines(ds, forensic)
      ensures if forensic then l == ForensicMailto || l == ForensicEmail else l == AggregateMailto || l == AggregateEmail
    {
      DestinationLinesIn(ds, forensic, l);
      var j :| 0 <= j < |ds| && l in OneDestination(ds[j], forensic);
      if forensic {
        ForensicDestination(ds[j]);
      } else {
        AggregateDestination(ds[j]);
      }
    }
  }

  /** Only a `v` tag raises the capitalization line: when it is not first or its value is not exactly DMARC1. */
  lemma VersionTag(index: nat, key: Key, value: string, ruaExists: bool)
    ensures DmarcVersion in TagLines(index, key, value, ruaExists) <==> key == V && (index != 0 || value != "DMARC1")
  {
    if key == RUA || key == RUF {
      DestinationLinesOnly(Split(value, ','), key == RUF);
    }
  }

  /**
    Only a `p` tag raises the second-tag line, when it is not second, and the
    invalid-policy line, when its value is not a policy.
   */
  lemma PolicyTag(index: nat, key: Key, value: string, ruaExists: bool)
    ensures SecondTag in TagLines(index, key, value, ruaExists) <==> key == P && index != 1
    ensures InvalidPolicy in TagLines(index, key, value, ruaExists) <==> key == P && !IsPolicy(value)
  {
    if key == RUA || key == RUF {
      DestinationLinesOnly(Split(value, ','), key == RUF);
    }
  }

  /** Only an `sp` tag whose value is not a policy raises the subdomain line. */
  lemma SubdomainTag(index: nat, key: Key, value: string, ruaExists: bool)
    ensures InvalidSubdomainPolicy in TagLines(index, key, value, ruaExists) <==> key == SP && !IsPolicy(value)
  {
    if key == RUA || key == RUF {
      DestinationLinesOnly(Split(value, ','), key == RUF);
    }
  }

  /** Only an `fo` tag whose value is not 0, 1, d or s raises the failure-options line. */
  lemma FailureOptionsTag(index: nat, key: Key, value: string, ruaExists: bool)
    ensures InvalidFailureOptions in TagLines(index, key, value, ruaExists) <==> key == FO && !IsFailureOption(value)
  {
    if key == RUA || key == RUF {
      DestinationLinesOnly(Split(value, ','), key == RUF);
    }
  }

  /** Only a `pct` tag raises the percentage line: when its value is not a decimal from 0 to 100. */
  lemma PercentageTag(index: nat, key: Key, value: string, ruaExists: bool)
    ensures InvalidPercentage in TagLines(index, key, value, ruaExists) <==>
      key == PCT && !(WellFormed(value) && 0 <= SignedValue(value) <= 100)
  {
    if key == RUA || key == RUF {
      DestinationLinesOnly(Split(value, ','), key == RUF);
    }
    AtoiSpec(value);
  }

  /**
    Only an `ri` tag raises the interval lines: the integer line when Atoi
    fails, and the value line for a well-formed negative value. Atoi gives
    -2^63 on an overflowing magnitude even when junk follows it, so the value
    line can also come for a malformed value, but always one with a leading '-'.
   */
  lemma IntervalTag(index: nat, key: Key, value: string, ruaExists: bool)
    ensures IntervalInteger in TagLines(index, key, value, ruaExists) <==>
      key == RI && !(WellFormed(value) && MinInt64 <= SignedValue(value) <= MaxInt64)
    ensures key == RI && WellFormed(value) && SignedValue(value) < 0 ==> IntervalValue in TagLines(index, key, value, ruaExists)
    ensures IntervalValue in TagLines(index, key, value, ruaExists) ==> key == RI && |value| > 0 && value[0] == '-'
  {
    if key == RUA || key == RUF {
      DestinationLinesOnly(Split(value, ','), key == RUF);
    }
    AtoiSpec(value);
    AtoiNegative(value);
    if WellFormed(value) {
      AtoiClamps(value);
    }
  }

  /** Atoi returns a negative value only for text with a leading '-'. */
  lemma AtoiNegative(s: string)
    ensures Atoi(s).value < 0 ==> |s| > 0 && s[0] == '-'
  {
    if |s| > 0 && s[0] != '-' {
      var body := if s[0] == '+' then s[1..] else s;
      if |body| > 0 {
        ParseDigitsSpec(body, 0);
      }
    }
  }

  /**
    An ri value of '-', digits past 2^64 - 1 and then any junk raises both
    interval lines, though the value is not a number at all.
   */
  lemma IntervalOverflow(index: nat, p: string, rest: string, ruaExists: bool)
    requires AllDigits(p) && DecimalFrom(p, 0) > MaxUint64
    ensures TagLines(index, RI, "-" + p + rest, ruaExists) == [IntervalInteger, IntervalValue]
  {
    AtoiOverflowThenJunk(p, rest);
  }


  /** Each valid policy has its own pair of lines, told apart by whether "rua=" occurs. */
  lemma PolicyLines(p1: string, r1: bool, p2: string, r2: bool)
    ensures IsPolicy(p1) <==> PolicyLine(p1, r1) != InvalidPolicy
    ensures IsPolicy(p1) && IsPolicy(p2) && PolicyLine(p1, r1) == PolicyLine(p2, r2) ==> p1 == p2 && r1 == r2
  {
  }

  /** Any line but a suggestion is in the advice exactly when some tag raises it on its own. */
  lemma MessagesByTag(record: string, line: Line)
    requires ';' in record
    requires line != SuggestRua && line != SuggestFo && line != SuggestRuf && line != SuggestSp
    ensures var tags := Tags(Split(record, ';'));
      line in DmarcLines(record) <==>
        exists i :: 0 <= i < |tags| && line in PartLines(i, tags[i], Contains(record, "rua="))
  {
    ContainsChar(record, ';');
    RecordMessages(Tags(Split(record, ';')), Contains(record, "rua="), line);
  }

  lemma RecordMessages(tags: seq<Tag>, ruaExists: bool, line: Line)
    requires line != SuggestRua && line != SuggestFo && line != SuggestRuf && line != SuggestSp
    ensures line in RecordLines(tags, ruaExists) <==>
      exists i :: 0 <= i < |tags| && line in PartLines(i, tags[i], ruaExists)
  {
    RecordShape(tags, ruaExists);
    AllPartLinesIn(tags, ruaExists, line);
  }


  /** The loop over the destinations of a rua tag. */
  method CheckAggregate(ds: seq<string>) returns (lines: seq<Line>)
    ensures lines == DestinationLines(ds, false)
  {
    lines := [];
    var j := 0;
    while j < |ds|
      invariant 0 <= j <= |ds|
      invariant lines == DestinationLines(ds[..j], false)
    {
      var destination := ds[j];
      if !HasPrefix(destination, "mailto:") {
        lines := lines + [AggregateMailto];
      }
      if !ValidateEmail(TrimPrefix(destination, "mailto:")) {
        lines := lines + [AggregateEmail];
      }
      TakeSnoc(ds, j);
      j := j + 1;
    }
    assert ds[..j] == ds;
  }

  /** The loop over the destinations of a ruf tag; a destination without "mailto:" goes on to the next. */
  method CheckForensic(ds: seq<string>) returns (lines: seq<Line>)
    ensures lines == DestinationLines(ds, true)
  {
    lines := [];
    var j := 0;
    while j < |ds|
      invariant 0 <= j <= |ds|
      invariant lines == DestinationLines(ds[..j], true)
    {
      var destination := ds[j];
      TakeSnoc(ds, j);
      j := j + 1;
      if !HasPrefix(destination, "mailto:") {
        lines := lines + [ForensicMailto];
        continue;
      }
      if !ValidateEmail(TrimPrefix(destination, "mailto:")) {
        lines := lines + [ForensicEmail];
      }
    }
    assert ds[..j] == ds;
  }

  /** The body of the tag loop: a part without '=' is skipped, any other goes to the switch on its key. */
  method ApplyTag(rec: Dmarc, index: nat, part: string, ruaExists: bool) returns (r: Dmarc)
    ensures r == Step(rec, index, KeyValue(part), ruaExists)
  {
    var t := TrimSpace(part);
    var eq := IndexOf(t, '=');
    if eq < 0 {
      return rec;
    }
    r := ApplyKeyValue(rec, index, KeyOf(t[..eq]), t[eq + 1..], ruaExists);
  }

  /** The switch on the key of one tag. */
  method ApplyKeyValue(rec: Dmarc, index: nat, key: Key, value: string, ruaExists: bool) returns (r: Dmarc)
    ensures r == SetField(rec, key, value).(advice := rec.advice + TagLines(index, key, value, ruaExists))
  {
    r := rec;
    match key {
      case V =>
        if index != 0 || value != "DMARC1" {
          r := r.(advice := r.advice + [DmarcVersion]);
        }
        r := r.(version := value);
      case P =>
        if index != 1 {
          r := r.(advice := r.advice + [SecondTag]);
        }
        r := r.(policy := value);
        if r.policy == "quarantine" {
          r := r.(advice := r.advice + [if ruaExists then QuarantineReports else QuarantineNoReports]);
        } else if r.policy == "none" {
          r := r.(advice := r.advice + [if ruaExists then NoneReports else NoneNoReports]);
        } else if r.policy == "reject" {
          r := r.(advice := r.advice + [if ruaExists then RejectReports else RejectNoReports]);
        } else {
          r := r.(advice := r.advice + [InvalidPolicy]);
        }
      case SP =>
        r := r.(subdomainPolicy := value);
        if !IsPolicy(r.subdomainPolicy) {
          r := r.(advice := r.advice + [InvalidSubdomainPolicy]);
        }
      case PCT =>
        var pct := Atoi(value);
        if pct.err || pct.value < 0 || pct.value > 100 {
          r := r.(advice := r.advice + [InvalidPercentage]);
        }
        r := r.(percentage := pct.value);
      case RUA =>
        r := r.(aggregate := Split(value, ','));
        var more := CheckAggregate(r.aggregate);
        r := r.(advice := r.advice + more);
      case RUF =>
        r := r.(forensic := Split(value, ','));
        var more := CheckForensic(r.forensic);
        r := r.(advice := r.advice + more);
      case FO =>
        r := r.(failureOptions := value);
        if !IsFailureOption(r.failureOptions) {
          r := r.(advice := r.advice + [InvalidFailureOptions]);
        }
      case ASPF =>
        r := r.(aspf := value);
      case ADKIM =>
        r := r.(adkim := value);
      case RI =>
        var ri := Atoi(value);
        if ri.err {
          r := r.(advice := r.advice + [IntervalInteger]);
        }
        if ri.value < 0 {
          r := r.(advice := r.advice + [IntervalValue]);
        }
        r := r.(reportInterval := ri.value);
      case Other =>
    }
  }

  /** The tag loop of CheckDMARC. */
  method ReadRecord(parts: seq<string>, ruaExists: bool) returns (rec: Dmarc)
    ensures rec == ReadTags(Tags(parts), ruaExists)
  {
    rec := EmptyDmarc;
    ghost var tags := Tags(parts);
    var index := 0;
    while index < |parts|
      invariant 0 <= index <= |parts|
      invariant rec == ReadTags(tags[..index], ruaExists)
    {
      rec := ApplyTag(rec, index, parts[index], ruaExists);
      TakeSnoc(tags, index);
      index := index + 1;
    }
    assert tags[..index] == tags;
  }

  /** CheckDMARC: the tag loop, then the suggestions. */
  method CheckDMARC(record: string) returns (advice: seq<string>)
    ensures advice == Texts(DmarcLines(record))
  {
    if record == "" {
      return Texts([NoDmarc]);
    }
    if !Contains(record, ";") {
      return Texts([DmarcMalformed]);
    }
    var parts := Split(record, ';');
    var ruaExists := Contains(record, "rua=");
    var rec := ReadRecord(parts, ruaExists);
    var lines := AddSuggestions(rec);
    assert lines == RecordLines(Tags(parts), ruaExists);
    return Texts(lines);
  }

  /** The suggestions CheckDMARC appends after the tag loop. */
  method AddSuggestions(rec: Dmarc) returns (lines: seq<Line>)
    ensures lines == rec.advice + Suggestions(rec)
  {
    lines := rec.advice;
    if |rec.aggregate| == 0 {
      lines := lines + [SuggestRua];
    }
    if rec.failureOptions == "" {
      lines := lines + [SuggestFo];
    }
    if |rec.forensic| == 0 {
      lines := lines + [SuggestRuf];
    }
    if rec.subdomainPolicy == "" {
      lines := lines + [SuggestSp];
    }
  }

  // ---------------------------------------------------------------------------
  // MX, SPF and the TLS version
  // ---------------------------------------------------------------------------

  /** CheckMX without the TLS probes: the server count picks the line; the empty-advice case cannot happen. */
  function MxLines(mx: seq<string>): (lines: seq<Line>)
    ensures |lines| == 1
    ensures lines[0] == NoMx <==> |mx| == 0
    ensures lines[0] == SingleMx <==> |mx| == 1
    ensures lines[0] == MultipleMx <==> |mx| >= 2
  {
    if |mx| == 0 then [NoMx]
    else
      var advice := if |mx| == 1 then [SingleMx] else [MultipleMx];
      if |advice| == 0 then [MultipleMxOk] else advice
  }

  function CheckMX(mx: seq<string>): seq<string> {
    Texts(MxLines(mx))
  }

  /** "+all" holds "all", so the +all line is chosen exactly when "+all" occurs. */
  lemma PlusAllHasAll(s: string)
    ensures Contains(s, "+all") ==> Contains(s, "all")
  {
    ContainsOccurs(s, "+all");
    if Contains(s, "+all") {
      var i :| OccursAt(s, "+all", i);
      assert s[i + 1..i + 4] == s[i..i + 4][1..];
      OccursContains(s, "all", i + 1);
    }
  }

  /** CheckSPF: exactly one line, chosen by emptiness, then "all", then "+all". */
  function SpfLines(spf: string): (lines: seq<Line>)
    ensures |lines| == 1
    ensures lines[0] == NoSpf <==> spf == ""
    ensures lines[0] == SpfPlusAll <==> Contains(spf, "+all")
    ensures lines[0] == SpfNoAll <==> spf != "" && !Contains(spf, "all")
    ensures lines[0] == SpfOk <==> Contains(spf, "all") && !Contains(spf, "+all")
  {
    PlusAllHasAll(spf);
    if spf == "" then [NoSpf]
    else if Contains(spf, "all") then
      if Contains(spf, "+all") then [SpfPlusAll] else [SpfOk]
    else [SpfNoAll]
  }

  function CheckSPF(spf: string): seq<string> {
    Texts(SpfLines(spf))
  }

  newtype uint16 = x: int | 0 <= x < 0x1_0000

  const VersionTLS10: uint16 := 0x0301
  const VersionTLS11: uint16 := 0x0302
  const VersionTLS12: uint16 := 0x0303
  const VersionTLS13: uint16 := 0x0304

  /** checkTlsVersion: the four known versions each have their own line; anything else is unrecognized. */
  function TlsLine(version: uint16): (l: Line)
    ensures l == TlsUnknown <==> version !in {VersionTLS10, VersionTLS11, VersionTLS12, VersionTLS13}
    ensures l == Tls13 <==> version == VersionTLS13
  {
    if version == VersionTLS10 then Tls10
    else if version == VersionTLS11 then Tls11
    else if version == VersionTLS12 then Tls12
    else if version == VersionTLS13 then Tls13
    else TlsUnknown
  }

  /** Two versions share a line only when neither is recognized. */
  lemma TlsLineInjective(a: uint16, b: uint16)
    ensures TlsLine(a) == TlsLine(b) && TlsLine(a) != TlsUnknown ==> a == b
  {
  }

  function CheckTlsVersion(version: uint16): string {
    Text(TlsLine(version))
  }

}

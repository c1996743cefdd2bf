/**
  The older scanner of scanner/scanner.go: it looks up only a domain's SPF
  and DMARC records, over TXT queries sent to its nameservers in round-robin
  order.

  The DNS client is the function `Exchange`: given the "host:port" of a
  nameserver and a query, it returns the response or the error text. The
  requests of this revision carry no EDNS0 option, written as a UDP size of 0.
 */
module LegacyScanner {
  import opened Wrappers
  import opened Strings
  import opened Dns
  import opened Net
  import opened Rotation
  import opened Semaphores

  const SpfPrefix := "v=spf1 "
  const DmarcPrefix := "v=DMARC1;"

  /** The publicly-available nameservers the package names. */
  const GoogleDNS: seq<string> := ["8.8.8.8", "8.8.4.4"]
  const Level3: seq<string> := ["4.2.2.1", "4.2.2.2", "4.2.2.3", "4.2.2.4", "4.2.2.5", "4.2.2.6"]
  const OpenDNS: seq<string> := ["208.67.222.222", "208.67.220.220"]

  type Exchange = (string, Query) -> Result<Msg, string>

  /** newTXTRequest: a TXT question for the fully qualified name. */
  function TxtQuery(name: string): (q: Query)
    ensures q.name == Fqdn(name) && q.qtype == TypeTXT && q.udpSize == 0
  {
    Query(Fqdn(name), TypeTXT, 0)
  }

  datatype ScanResult = ScanResult(
    domain: string,
    spf: string,
    dmarc: string,
    dkim: string,
    duration: int,
    err: Option<string>,    // Err; `None` is nil
    error: string)          // Error, the text of Err

  // ---------------------------------------------------------------------------
  // The first TXT string with a prefix
  // ---------------------------------------------------------------------------

  /** The strings of the TXT records of an answer section, in order; other records are skipped. */
  function TxtStrings(answer: seq<RR>): seq<string>
    decreases |answer|
  {
    if |answer| == 0 then []
    else (if answer[0].data.TXT? then answer[0].data.txt else []) + TxtStrings(answer[1..])
  }

  lemma {:induction false} TxtStringsConcat(a: seq<RR>, b: seq<RR>)
    ensures TxtStrings(a + b) == TxtStrings(a) + TxtStrings(b)
    decreases |a|
  {
    if |a| == 0 {
      assert a + b == b;
    } else {
      assert (a + b)[1..] == a[1..] + b;
      TxtStringsConcat(a[1..], b);
    }
  }

  /** TxtStrings of one more answer. */
  lemma TxtStringsSnoc(a: seq<RR>, rr: RR)
    ensures TxtStrings(a + [rr]) == TxtStrings(a) + (if rr.data.TXT? then rr.data.txt else [])
  {
    TxtStringsConcat(a, [rr]);
    assert [rr][1..] == [];
  }

  /**
    The first single TXT string that starts with `prefix`. Strings are not
    joined: a record split over several strings yields only its first string.
   */
  function FirstMatch(answer: seq<RR>, prefix: string): (v: Option<string>)
    ensures v.Some? ==> HasPrefix(v.value, prefix)
  {
    var ss := TxtStrings(answer);
    var i := FirstPrefixed(ss, prefix);
    if i < 0 then None else Some(ss[i])
  }

  /**
    No match exactly when no string has the prefix; a match is a string with
    the prefix and none before it has one.
   */
  lemma FirstMatchSpec(answer: seq<RR>, prefix: string)
    ensures var v, ss := FirstMatch(answer, prefix), TxtStrings(answer);
      && (v.None? <==> forall j :: 0 <= j < |ss| ==> !HasPrefix(ss[j], prefix))
      && (v.Some? ==> exists i :: 0 <= i < |ss| && ss[i] == v.value && forall j :: 0 <= j < i ==> !HasPrefix(ss[j], prefix))
  {
    var v, ss := FirstMatch(answer, prefix), TxtStrings(answer);
    var i := FirstPrefixed(ss, prefix);
    if i >= 0 {
      assert v == Some(ss[i]) && HasPrefix(ss[i], prefix);
      assert forall j :: 0 <= j < i ==> !HasPrefix(ss[j], prefix);
    } else {
      assert v.None?;
    }
  }

  /** A record split into two strings: only the first string is returned. */
  lemma SplitRecordNotJoined()
    ensures FirstMatch([RR(TypeTXT, TXT(["v=spf1 include:a", " -all"]))], SpfPrefix) == Some("v=spf1 include:a")
  {
    var ans := [RR(TypeTXT, TXT(["v=spf1 include:a", " -all"]))];
    assert ans[1..] == [];
    assert TxtStrings(ans) == ["v=spf1 include:a", " -all"];
    assert HasPrefix("v=spf1 include:a", SpfPrefix);
  }

  /** The loops over the answers and over the strings of each TXT record. */
  method ScanAnswers(answer: seq<RR>, prefix: string) returns (v: Option<string>)
    ensures v == FirstMatch(answer, prefix)
  {
    var i := 0;
    while i < |answer|
      invariant 0 <= i <= |answer|
      invariant forall j :: 0 <= j < |TxtStrings(answer[..i])| ==> !HasPrefix(TxtStrings(answer[..i])[j], prefix)
    {
      TxtStringsSnoc(answer[..i], answer[i]);
      assert answer[..i + 1] == answer[..i] + [answer[i]];
      if answer[i].data.TXT? {
        var txt := answer[i].data.txt;
        var k := 0;
        while k < |txt|
          invariant 0 <= k <= |txt|
          invariant forall j :: 0 <= j < k ==> !HasPrefix(txt[j], prefix)
        {
          if HasPrefix(txt[k], prefix) {
            FoundAt(answer, prefix, i, k);
            return Some(txt[k]);
          }
          k := k + 1;
        }
      }
      i := i + 1;
    }
    assert answer[..i] == answer;
    return None;
  }

  /** A string found by the loops, with nothing prefixed before it, is the first match. */
  lemma FoundAt(answer: seq<RR>, prefix: string, i: nat, k: nat)
    requires i < |answer| && answer[i].data.TXT? && k < |answer[i].data.txt|
    requires forall j :: 0 <= j < |TxtStrings(answer[..i])| ==> !HasPrefix(TxtStrings(answer[..i])[j], prefix)
    requires forall j :: 0 <= j < k ==> !HasPrefix(answer[i].data.txt[j], prefix)
    requires HasPrefix(answer[i].data.txt[k], prefix)
    ensures FirstMatch(answer, prefix) == Some(answer[i].data.txt[k])
  {
    var pre, txt := TxtStrings(answer[..i]), answer[i].data.txt;
    assert answer == answer[..i] + [answer[i]] + answer[i + 1..];
    TxtStringsConcat(answer[..i] + [answer[i]], answer[i + 1..]);
    TxtStringsSnoc(answer[..i], answer[i]);
    var ss := TxtStrings(answer);
    assert ss == pre + txt + TxtStrings(answer[i + 1..]);
    var n := |pre| + k;
    assert ss[n] == txt[k];
    forall j | 0 <= j < n ensures !HasPrefix(ss[j], prefix) {
      if j < |pre| {
        assert ss[j] == pre[j];
      } else {
        assert ss[j] == txt[j - |pre|];
      }
    }
    assert FirstPrefixed(ss, prefix) == n;
  }

  // ---------------------------------------------------------------------------
  // spf and dmarc: one query per candidate name, until a match or an error
  // ---------------------------------------------------------------------------

  /**
    One query: the TXT records of `name`, asked of the server after cursor
    `idx`. An exchange error is wrapped as "exchange"; otherwise the first
    string with the prefix, if any.
   */
  function Ask(x: Exchange, ns: seq<string>, idx: uint32, name: string, prefix: string): (r: Result<Option<string>, string>)
    requires |ns| > 0
  {
    match x(NSAt(ns, Cursor(idx, 1)).value, TxtQuery(name))
    case Err(e) => Err("exchange: " + e)
    case Ok(m) => Ok(FirstMatch(m.answer, prefix))
  }

  /** The value a lookup returns for the outcome of its last query: "" when nothing matched. */
  function OrEmpty(a: Result<Option<string>, string>): Result<string, string> {
    match a
    case Err(e) => Err(e)
    case Ok(Some(v)) => Ok(v)
    case Ok(None) => Ok("")
  }

  /** A search result with k more queries counted. */
  function Shift(r: (Result<string, string>, nat), k: nat): (Result<string, string>, nat) {
    (r.0, r.1 + k)
  }

  /**
    The candidate names tried in order, each with the next server of the
    rotation after cursor `idx`: the result, and the number of queries sent.
    An exchange error or a match ends the search; running out of names gives "".
   */
  function Search(x: Exchange, ns: seq<string>, idx: uint32, names: seq<string>, prefix: string): (r: (Result<string, string>, nat))
    requires |ns| > 0
    ensures |names| == 0 ==> r == (Ok(""), 0)
    ensures |names| > 0 ==> 1 <= r.1 <= |names|
    ensures r.0.Ok? ==> r.0.value == "" || HasPrefix(r.0.value, prefix)
    ensures r.0.Err? ==> HasPrefix(r.0.error, "exchange: ")
    decreases |names|
  {
    if |names| == 0 then (Ok(""), 0)
    else
      match Ask(x, ns, idx, names[0], prefix)
      case Err(e) => (Err(e), 1)
      case Ok(Some(v)) => (Ok(v), 1)
      case Ok(None) => Shift(Search(x, ns, Cursor(idx, 1), names[1..], prefix), 1)
  }

  /** The search from the i-th name on, one step unfolded. */
  lemma SearchUnfold(x: Exchange, ns: seq<string>, idx: uint32, names: seq<string>, i: nat, prefix: string)
    requires |ns| > 0 && i < |names|
    ensures Search(x, ns, idx, names[i..], prefix) ==
      match Ask(x, ns, idx, names[i], prefix)
      case Err(e) => (Err(e), 1)
      case Ok(Some(v)) => (Ok(v), 1)
      case Ok(None) => Shift(Search(x, ns, Cursor(idx, 1), names[i + 1..], prefix), 1)
  {
    assert names[i..][0] == names[i];
    assert names[i..][1..] == names[i + 1..];
  }

  /**
    One round of the lookup loop: `total` is the whole search, i queries in.
    The outcome of the i-th query decides it, or it goes on from name i+1.
   */
  lemma LookupStep(x: Exchange, ns: seq<string>, start: uint32, names: seq<string>, prefix: string, i: nat,
                   total: (Result<string, string>, nat))
    requires |ns| > 0 && i < |names|
    requires total == Shift(Search(x, ns, Cursor(start, i), names[i..], prefix), i)
    ensures Cursor(Cursor(start, i), 1) == Cursor(start, i + 1)
    ensures var a := Ask(x, ns, Cursor(start, i), names[i], prefix);
      && (a.Err? ==> total == (Err(a.error), i + 1))
      && (a.Ok? && a.value.Some? ==> total == (Ok(a.value.value), i + 1))
      && (a == Ok(None) ==> total == Shift(Search(x, ns, Cursor(start, i + 1), names[i + 1..], prefix), i + 1))
  {
    SearchUnfold(x, ns, Cursor(start, i), names, i, prefix);
    CursorStep(start, i);
  }

  /** spf: the TXT records of the name itself. */
  function SpfSpec(x: Exchange, ns: seq<string>, idx: uint32, name: string): (r: (Result<string, string>, nat))
    requires |ns| > 0
  {
    Search(x, ns, idx, [name], SpfPrefix)
  }

  /** dmarc: the DMARC name first, then the domain itself. */
  function DmarcNames(name: string): seq<string> {
    ["_dmarc." + name, name]
  }

  function DmarcSpec(x: Exchange, ns: seq<string>, idx: uint32, name: string): (r: (Result<string, string>, nat))
    requires |ns| > 0
  {
    Search(x, ns, idx, DmarcNames(name), DmarcPrefix)
  }

  /** spf sends one query, to the next server: an exchange error, the first "v=spf1 " string, or "". */
  lemma SpfOneQuery(x: Exchange, ns: seq<string>, idx: uint32, name: string)
    requires |ns| > 0
    ensures SpfSpec(x, ns, idx, name) == (OrEmpty(Ask(x, ns, idx, name, SpfPrefix)), 1)
  {
    SearchUnfold(x, ns, idx, [name], 0, SpfPrefix);
    assert [name][1..] == [];
  }

  /** A match under "_dmarc." ends dmarc after one query: the domain itself is not asked. */
  lemma DmarcNameFirst(x: Exchange, ns: seq<string>, idx: uint32, name: string)
    requires |ns| > 0
    requires Ask(x, ns, idx, "_dmarc." + name, DmarcPrefix).Ok?
    requires Ask(x, ns, idx, "_dmarc." + name, DmarcPrefix).value.Some?
    ensures DmarcSpec(x, ns, idx, name) == (Ok(Ask(x, ns, idx, "_dmarc." + name, DmarcPrefix).value.value), 1)
  {
  }

  /** An exchange error on the DMARC name aborts dmarc: the domain itself is not asked. */
  lemma DmarcAborts(x: Exchange, ns: seq<string>, idx: uint32, name: string)
    requires |ns| > 0
    requires Ask(x, ns, idx, "_dmarc." + name, DmarcPrefix).Err?
    ensures DmarcSpec(x, ns, idx, name) == (Err(Ask(x, ns, idx, "_dmarc." + name, DmarcPrefix).error), 1)
  {
  }

  /** Without a match there, the domain itself is asked, of the following server, and its outcome is dmarc's. */
  lemma DmarcFallsBack(x: Exchange, ns: seq<string>, idx: uint32, name: string)
    requires |ns| > 0
    requires Ask(x, ns, idx, "_dmarc." + name, DmarcPrefix) == Ok(None)
    ensures DmarcSpec(x, ns, idx, name) == (OrEmpty(Ask(x, ns, Cursor(idx, 1), name, DmarcPrefix)), 2)
  {
    SearchUnfold(x, ns, idx, DmarcNames(name), 0, DmarcPrefix);
    assert DmarcNames(name)[0..] == DmarcNames(name);
    SearchUnfold(x, ns, Cursor(idx, 1), DmarcNames(name), 1, DmarcPrefix);
    assert DmarcNames(name)[2..] == [];
  }

  // ---------------------------------------------------------------------------
  // scan: both lookups, and the error of the last one that failed
  // ---------------------------------------------------------------------------

  /** scan on values: the result and the cursor after the queries it sent. */
  function ScanSpec(x: Exchange, ns: seq<string>, idx: uint32, name: string, elapsed: int): (r: (ScanResult, uint32))
    requires |ns| > 0
  {
    var (s, n1) := SpfSpec(x, ns, idx, name);
    var (d, n2) := DmarcSpec(x, ns, Cursor(idx, n1), name);
    var err := if d.Err? then Some("dmarc: " + d.error) else if s.Err? then Some("spf: " + s.error) else None;
    (ScanResult(name, if s.Ok? then s.value else "", if d.Ok? then d.value else "", "", elapsed,
                err, if err.Some? then err.value else ""),
     Cursor(Cursor(idx, n1), n2))
  }

  /**
    A DMARC error replaces an SPF error in Err, Error is Err's text, and each
    record is filled when its lookup succeeded.
   */
  lemma ScanMergesErrors(x: Exchange, ns: seq<string>, idx: uint32, name: string, elapsed: int)
    requires |ns| > 0
    ensures var res := ScanSpec(x, ns, idx, name, elapsed).0;
      var s := SpfSpec(x, ns, idx, name).0;
      var d := DmarcSpec(x, ns, Cursor(idx, 1), name).0;
      && (d.Err? ==> res.err == Some("dmarc: " + d.error))
      && (d.Ok? && s.Err? ==> res.err == Some("spf: " + s.error))
      && (d.Ok? && s.Ok? ==> res.err.None?)
      && (res.error == if res.err.Some? then res.err.value else "")
      && res.spf == (if s.Ok? then s.value else "")
      && res.dmarc == (if d.Ok? then d.value else "")
      && res.domain == name && res.dkim == "" && res.duration == elapsed
  {
    SpfOneQuery(x, ns, idx, name);
  }

  /** scan always runs the DMARC lookup, also after an SPF error: it sends two or three queries. */
  lemma ScanQueries(x: Exchange, ns: seq<string>, idx: uint32, name: string, elapsed: int)
    requires |ns| > 0
    ensures var c := ScanSpec(x, ns, idx, name, elapsed).1;
      c == Cursor(idx, 1 + DmarcSpec(x, ns, Cursor(idx, 1), name).1)
      && (c == Cursor(idx, 2) || c == Cursor(idx, 3))
  {
    var n2 := DmarcSpec(x, ns, Cursor(idx, 1), name).1;
    ScanCursor(x, ns, idx, name, elapsed);
    CursorSum(idx, 1, n2);
    if n2 == 1 {
      assert 1 + n2 == 2;
    } else {
      assert 1 + n2 == 3;
    }
  }

  /** The cursor after scan: one query for spf, then dmarc's, which are one or two. */
  lemma ScanCursor(x: Exchange, ns: seq<string>, idx: uint32, name: string, elapsed: int)
    requires |ns| > 0
    ensures var n2 := DmarcSpec(x, ns, Cursor(idx, 1), name).1;
      ScanSpec(x, ns, idx, name, elapsed).1 == Cursor(Cursor(idx, 1), n2) && (n2 == 1 || n2 == 2)
  {
    SpfOneQuery(x, ns, idx, name);
  }

  // ---------------------------------------------------------------------------
  // Options and the scanner
  // ---------------------------------------------------------------------------

  /** One nameserver entry as UseNameservers rewrites it. */
  function NormalizeEntry(net: NetLib, s: string): (r: string)
    ensures net.splitHostPort(s).None? ==> r == s + ":53"
    ensures net.splitHostPort(s).Some? && net.splitHostPort(s).value.port == "" ==>
      r == JoinHostPort(net.splitHostPort(s).value.host, "53")
    ensures net.splitHostPort(s).Some? && net.splitHostPort(s).value.port != "" ==> r == s
  {
    match net.splitHostPort(s)
    case None => s + ":53"
    case Some(hp) => if hp.port == "" then JoinHostPort(hp.host, "53") else s
  }

  /** Every entry rewritten, in order. */
  function NormalizeAll(net: NetLib, xs: seq<string>): (ys: seq<string>)
    ensures |ys| == |xs|
    ensures forall i :: 0 <= i < |xs| ==> ys[i] == NormalizeEntry(net, xs[i])
  {
    seq(|xs|, i requires 0 <= i < |xs| => NormalizeEntry(net, xs[i]))
  }

  /**
    When SplitHostPort inverts JoinHostPort with port 53, an entry that
    already split is left alone by a second rewrite.
   */
  lemma NormalizeEntryStable(net: NetLib, s: string)
    requires net.splitHostPort(s).Some?
    requires var h := net.splitHostPort(s).value.host;
      net.splitHostPort(JoinHostPort(h, "53")) == Some(HostPort(h, "53"))
    ensures NormalizeEntry(net, NormalizeEntry(net, s)) == NormalizeEntry(net, s)
  {
  }

  /** What the options read from the machine: resolv.conf is either its servers or the error opening it. */
  datatype Env = Env(numCPU: nat, resolvConf: Result<seq<string>, string>, net: NetLib)

  datatype ScannerOption =
    | UseNameservers(ns: array<string>)
    | WithTimeout(timeout: int)
    | ConcurrentScans(n: int)

  /** The error an option returns: only UseNameservers with no servers and no readable resolv.conf fails. */
  function OptionError(o: ScannerOption, env: Env): (e: Option<string>)
    ensures e.Some? <==> o.UseNameservers? && o.ns.Length == 0 && env.resolvConf.Err?
  {
    if o.UseNameservers? && o.ns.Length == 0 && env.resolvConf.Err? then
      Wrap(Some(env.resolvConf.error), "open /etc/resolv.conf")
    else None
  }

  /** The error of the first failing option, prefixed "apply option". */
  function OptionsError(options: seq<ScannerOption>, env: Env): (e: Option<string>)
    ensures e.None? <==> forall i :: 0 <= i < |options| ==> OptionError(options[i], env).None?
    decreases |options|
  {
    if |options| == 0 then None
    else if OptionError(options[0], env).Some? then Wrap(OptionError(options[0], env), "apply option")
    else OptionsError(options[1..], env)
  }

  /** The capacity New gives the semaphore: the last ConcurrentScans option's, or the CPU count. */
  function SemSize(options: seq<ScannerOption>, numCPU: nat): (n: nat)
    ensures (forall i :: 0 <= i < |options| ==> !options[i].ConcurrentScans?) ==> n == numCPU
    decreases |options|
  {
    if |options| == 0 then numCPU
    else match options[|options| - 1]
      case ConcurrentScans(k) => if k <= 0 then numCPU else k
      case _ => SemSize(options[..|options| - 1], numCPU)
  }

  class Scanner {
    var nameservers: seq<string>
    var nsidx: uint32
    var timeout: int
    var sem: Semaphore?

    predicate Valid()
      reads this, sem
    {
      sem != null ==> sem.Valid()
    }

    constructor ()
      ensures Valid() && nameservers == [] && nsidx == 0 && timeout == 0 && sem == null
    {
      nameservers, nsidx, timeout, sem := [], 0, 0, null;
    }

    /** getNS: advances the cursor and picks the server it points at; `None` is the panic on no servers. */
    method GetNS() returns (r: Option<string>)
      modifies this
      ensures nsidx == Cursor(old(nsidx), 1)
      ensures r == NSAt(nameservers, nsidx)
      ensures nameservers == old(nameservers) && timeout == old(timeout) && sem == old(sem)
    {
      nsidx := Next(nsidx);
      if |nameservers| == 0 {
        return None;
      }
      return Some(nameservers[nsidx as int % |nameservers|]);
    }

    /** One query of spf or dmarc: the next server is asked for the TXT records of `name`. */
    method AskNext(name: string, prefix: string, x: Exchange) returns (a: Result<Option<string>, string>)
      requires |nameservers| > 0
      modifies this
      ensures nameservers == old(nameservers) && timeout == old(timeout) && sem == old(sem)
      ensures a == Ask(x, nameservers, old(nsidx), name, prefix) && nsidx == Cursor(old(nsidx), 1)
    {
      var server := GetNS();
      match x(server.value, TxtQuery(name)) {
        case Err(e) =>
          return Err("exchange: " + e);
        case Ok(m) =>
          var v := ScanAnswers(m.answer, prefix);
          return Ok(v);
      }
    }

    /**
      One round of the lookup loop, i queries in: the query for the i-th name
      either decides the whole search `total`, or leaves it to name i+1.
     */
    method LookupRound(names: seq<string>, prefix: string, x: Exchange, i: nat,
                       ghost start: uint32, ghost total: (Result<string, string>, nat))
      returns (done: bool, r: Result<string, string>)
      requires |nameservers| > 0 && i < |names| && nsidx == Cursor(start, i)
      requires total == Shift(Search(x, nameservers, nsidx, names[i..], prefix), i)
      modifies this
      ensures nameservers == old(nameservers) && timeout == old(timeout) && sem == old(sem)
      ensures done ==> r == total.0 && nsidx == Cursor(start, total.1)
      ensures !done ==> nsidx == Cursor(start, i + 1)
      ensures !done ==> total == Shift(Search(x, nameservers, nsidx, names[i + 1..], prefix), i + 1)
    {
      LookupStep(x, nameservers, start, names, prefix, i, total);
      var a := AskNext(names[i], prefix, x);
      if a.Err? {
        return true, Err(a.error);
      } else if a.value.Some? {
        return true, Ok(a.value.value);
      }
      return false, Ok("");
    }

    /** The loop shared by spf and dmarc: one query per name, each to the next server. */
    method Lookup(names: seq<string>, prefix: string, x: Exchange) returns (r: Result<string, string>)
      requires |nameservers| > 0
      modifies this
      ensures nameservers == old(nameservers) && timeout == old(timeout) && sem == old(sem)
      ensures (r, nsidx) == (Search(x, nameservers, old(nsidx), names, prefix).0,
                             Cursor(old(nsidx), Search(x, nameservers, old(nsidx), names, prefix).1))
    {
      ghost var start, ns := nsidx, nameservers;
      ghost var total := Search(x, ns, start, names, prefix);
      var i := 0;
      while i < |names|
        invariant 0 <= i <= |names|
        invariant nameservers == ns && timeout == old(timeout) && sem == old(sem)
        invariant nsidx == Cursor(start, i)
        invariant total == Shift(Search(x, ns, nsidx, names[i..], prefix), i)
      {
        var done;
        done, r := LookupRound(names, prefix, x, i, start, total);
        if done {
          return;
        }
        i := i + 1;
      }
      assert names[i..] == [];
      r := Ok("");
    }

    method Spf(name: string, x: Exchange) returns (r: Result<string, string>)
      requires |nameservers| > 0
      modifies this
      ensures nameservers == old(nameservers) && timeout == old(timeout) && sem == old(sem)
      ensures (r, nsidx) == (SpfSpec(x, nameservers, old(nsidx), name).0, Cursor(old(nsidx), SpfSpec(x, nameservers, old(nsidx), name).1))
    {
      r := Lookup([name], SpfPrefix, x);
    }

    method Dmarc(name: string, x: Exchange) returns (r: Result<string, string>)
      requires |nameservers| > 0
      modifies this
      ensures nameservers == old(nameservers) && timeout == old(timeout) && sem == old(sem)
      ensures (r, nsidx) == (DmarcSpec(x, nameservers, old(nsidx), name).0, Cursor(old(nsidx), DmarcSpec(x, nameservers, old(nsidx), name).1))
    {
      r := Lookup(DmarcNames(name), DmarcPrefix, x);
    }

    /** scan: SPF, then DMARC, each error overwriting Err; the duration is passed in. */
    method Scan(name: string, x: Exchange, elapsed: int) returns (res: ScanResult)
      requires |nameservers| > 0
      modifies this
      ensures nameservers == old(nameservers) && timeout == old(timeout) && sem == old(sem)
      ensures (res, nsidx) == ScanSpec(x, nameservers, old(nsidx), name, elapsed)
    {
      res := ScanResult(name, "", "", "", 0, None, "");
      var s := Spf(name, x);
      if s.Err? {
        res := res.(err := Some("spf: " + s.error));
      } else {
        res := res.(spf := s.value);
      }
      var d := Dmarc(name, x);
      if d.Err? {
        res := res.(err := Some("dmarc: " + d.error));
      } else {
        res := res.(dmarc := d.value);
      }
      res := res.(duration := elapsed);
      if res.err.Some? {
        res := res.(error := res.err.value);
      }
    }

    /**
      The UseNameservers option. With no servers given, resolv.conf's are
      used, and an unreadable resolv.conf is an error that changes nothing.
      A non-empty array is rewritten in place.
     */
    method SetNameservers(ns: array<string>, env: Env) returns (err: Option<string>)
      modifies this, ns
      ensures err == OptionError(UseNameservers(ns), env)
      ensures err.Some? ==> nameservers == old(nameservers)
      ensures err.None? && ns.Length > 0 ==> nameservers == NormalizeAll(env.net, old(ns[..])) && ns[..] == nameservers
      ensures err.None? && ns.Length == 0 ==> nameservers == NormalizeAll(env.net, env.resolvConf.value)
      ensures nsidx == old(nsidx) && timeout == old(timeout) && sem == old(sem)
    {
      var list := ns;
      if ns.Length == 0 {
        match env.resolvConf {
          case Err(e) =>
            return Wrap(Some(e), "open /etc/resolv.conf");
          case Ok(servers) =>
            list := new string[|servers|](i requires 0 <= i < |servers| => servers[i]);
            assert list[..] == servers;
        }
      }
      ghost var input := list[..];
      var i := 0;
      while i < list.Length
        invariant 0 <= i <= list.Length && list.Length == |input|
        invariant list == ns || fresh(list)
        invariant forall j :: 0 <= j < i ==> list[j] == NormalizeEntry(env.net, input[j])
        invariant list[i..] == input[i..]
        invariant unchanged(this)
      {
        list[i] := NormalizeEntry(env.net, list[i]);
        i := i + 1;
      }
      assert list[..] == NormalizeAll(env.net, input);
      nameservers := list[..];
      return None;
    }

    /** One option applied to the scanner, as New calls it; only UseNameservers can fail. */
    method Apply(o: ScannerOption, env: Env) returns (err: Option<string>)
      requires Valid()
      modifies this, sem, if o.UseNameservers? then {o.ns} else {}
      ensures err == OptionError(o, env)
      ensures Valid() && nsidx == old(nsidx)
      ensures o.ConcurrentScans? ==> sem != null && fresh(sem) && sem.tokens == 0 && sem.capacity == (if o.n <= 0 then env.numCPU else o.n)
      ensures !o.ConcurrentScans? ==> sem == old(sem) && (sem != null ==> sem.tokens == old(sem.tokens) && sem.capacity == old(sem.capacity))
      ensures o.WithTimeout? ==> timeout == o.timeout
      ensures !o.WithTimeout? ==> timeout == old(timeout)
      ensures o.UseNameservers? && err.None? && o.ns.Length > 0 ==> nameservers == NormalizeAll(env.net, old(o.ns[..])) && o.ns[..] == nameservers
      ensures o.UseNameservers? && err.None? && o.ns.Length == 0 ==> nameservers == NormalizeAll(env.net, env.resolvConf.value)
      ensures o.UseNameservers? && o.ns.Length == 0 ==> o.ns[..] == old(o.ns[..])
      ensures !(o.UseNameservers? && err.None?) ==> nameservers == old(nameservers)
    {
      err := None;
      match o {
        case UseNameservers(ns) => err := SetNameservers(ns, env);
        case WithTimeout(t) => SetTimeout(t);
        case ConcurrentScans(n) => SetConcurrentScans(n, env);
      }
    }

    /** The WithTimeout option: the DNS client's timeout. */
    method SetTimeout(t: int)
      modifies this
      ensures timeout == t && nameservers == old(nameservers) && nsidx == old(nsidx) && sem == old(sem)
    {
      timeout := t;
    }

    /** The ConcurrentScans option: closes the old semaphore and makes an empty one of size n. */
    method SetConcurrentScans(n: int, env: Env)
      requires Valid()
      modifies this, sem
      ensures Valid() && sem != null && fresh(sem) && sem.tokens == 0
      ensures sem.capacity == if n <= 0 then env.numCPU else n
      ensures old(sem) != null ==> old(sem).closed
      ensures nameservers == old(nameservers) && nsidx == old(nsidx) && timeout == old(timeout)
    {
      var size: nat := if n <= 0 then env.numCPU else n;
      if sem != null {
        sem.Close();
      }
      sem := new Semaphore(size);
    }
  }

  /** The position of the last UseNameservers option, or -1 when there is none. */
  function LastNameservers(options: seq<ScannerOption>): (j: int)
    ensures -1 <= j < |options|
    ensures j >= 0 ==> options[j].UseNameservers?
    ensures forall k :: j < k < |options| ==> !options[k].UseNameservers?
    decreases |options|
  {
    if |options| == 0 then -1
    else if options[|options| - 1].UseNameservers? then |options| - 1
    else LastNameservers(options[..|options| - 1])
  }

  /** The timeout of the last WithTimeout option; 0, the zero Duration, when there is none. */
  function LastTimeout(options: seq<ScannerOption>): (t: int)
    ensures (forall k :: 0 <= k < |options| ==> !options[k].WithTimeout?) ==> t == 0
    ensures |options| > 0 && options[|options| - 1].WithTimeout? ==> t == options[|options| - 1].timeout
    decreases |options|
  {
    if |options| == 0 then 0
    else if options[|options| - 1].WithTimeout? then options[|options| - 1].timeout
    else LastTimeout(options[..|options| - 1])
  }

  /** How many options, from the front, succeed: New stops at the first one that fails. */
  function FailAt(options: seq<ScannerOption>, env: Env): (k: nat)
    ensures k <= |options|
    ensures forall i :: 0 <= i < k ==> OptionError(options[i], env).None?
    ensures k < |options| ==> OptionError(options[k], env).Some?
    decreases |options|
  {
    if |options| == 0 || OptionError(options[0], env).Some? then 0 else 1 + FailAt(options[1..], env)
  }

  /** New's error is the one of the option at FailAt: the first failure, and only it, decides. */
  lemma {:induction false} OptionsErrorAt(options: seq<ScannerOption>, env: Env)
    ensures OptionsError(options, env) ==
      if FailAt(options, env) == |options| then None else Wrap(OptionError(options[FailAt(options, env)], env), "apply option")
    decreases |options|
  {
    if |options| > 0 && OptionError(options[0], env).None? {
      OptionsErrorAt(options[1..], env);
    }
  }

  /** No array is passed to two UseNameservers options. */
  predicate DistinctArrays(options: seq<ScannerOption>) {
    forall a, b :: 0 <= a < b < |options| && options[a].UseNameservers? && options[b].UseNameservers? ==>
      options[a].ns != options[b].ns
  }

  /** The arrays the UseNameservers options may rewrite. */
  function OptionArrays(options: seq<ScannerOption>): set<array<string>> {
    set o | o in options && o.UseNameservers? :: o.ns
  }

  /** The current contents of each option's array; [] for the other options. */
  ghost function Contents(options: seq<ScannerOption>): (c: seq<seq<string>>)
    reads OptionArrays(options)
    ensures |c| == |options|
    ensures forall k :: 0 <= k < |options| && options[k].UseNameservers? ==> c[k] == options[k].ns[..]
  {
    seq(|options|, k requires 0 <= k < |options| reads OptionArrays(options) =>
      if options[k].UseNameservers? then options[k].ns[..] else [])
  }

  /** The arrays after the first i options: each non-empty one among them normalised, the rest as they were. */
  ghost predicate ArraysAfter(options: seq<ScannerOption>, i: nat, orig: seq<seq<string>>, net: NetLib)
    requires |orig| == |options|
    reads OptionArrays(options)
  {
    forall k :: 0 <= k < |options| && options[k].UseNameservers? ==>
      options[k].ns[..] == if k < i && options[k].ns.Length > 0 then NormalizeAll(net, orig[k]) else orig[k]
  }

  /**
    The nameservers after the first i options, all of which succeeded: none
    without a UseNameservers option; otherwise the last one's array, or
    resolv.conf's servers normalised when that array is empty.
   */
  ghost predicate NameserversAfter(s: Scanner, options: seq<ScannerOption>, i: nat, env: Env)
    requires i <= |options|
    reads s, OptionArrays(options)
  {
    var j := LastNameservers(options[..i]);
    && (j == -1 ==> s.nameservers == [])
    && (j >= 0 && options[j].ns.Length > 0 ==> s.nameservers == options[j].ns[..])
    && (j >= 0 && options[j].ns.Length == 0 ==> env.resolvConf.Ok? && s.nameservers == NormalizeAll(env.net, env.resolvConf.value))
  }

  /** The scanner after the first i options of New, all of which succeeded, with empty semaphore. */
  ghost predicate AppliedUpTo(s: Scanner, options: seq<ScannerOption>, i: nat, env: Env, orig: seq<seq<string>>)
    requires i <= |options| && |orig| == |options|
    reads s, s.sem, OptionArrays(options)
  {
    && s.Valid()
    && (s.sem != null ==> s.sem.tokens == 0 && s.sem.capacity == SemSize(options[..i], env.numCPU))
    && (s.sem == null ==> SemSize(options[..i], env.numCPU) == env.numCPU)
    && s.timeout == LastTimeout(options[..i]) && s.nsidx == 0
    && NameserversAfter(s, options, i, env)
    && (DistinctArrays(options) ==> ArraysAfter(options, i, orig, env.net))
  }

  /** One round of the option loop: option i applied; on its error the arrays are as before. */
  method ApplyNext(s: Scanner, options: seq<ScannerOption>, i: nat, env: Env, ghost orig: seq<seq<string>>)
    returns (err: Option<string>)
    requires i < |options| && |orig| == |options|
    requires AppliedUpTo(s, options, i, env, orig)
    modifies s, s.sem, if options[i].UseNameservers? then {options[i].ns} else {}
    ensures err == OptionError(options[i], env)
    ensures err.None? ==> AppliedUpTo(s, options, i + 1, env, orig)
    ensures err.Some? ==> DistinctArrays(options) ==> ArraysAfter(options, i, orig, env.net)
    ensures s.sem == old(s.sem) || fresh(s.sem)
  {
    assert options[..i + 1][..i] == options[..i];
    assert options[..i + 1][i] == options[i];
    err := s.Apply(options[i], env);
    if DistinctArrays(options) {
      forall k | 0 <= k < |options| && options[k].UseNameservers?
        ensures options[k].ns[..] == if k < i + 1 && options[k].ns.Length > 0 then NormalizeAll(env.net, orig[k]) else orig[k]
      {
        if k != i && options[i].UseNameservers? {
          assert options[k].ns != options[i].ns;
        }
      }
    }
  }

  /** The option loop of New: each option applied in turn, up to the first that fails. */
  method ApplyOptions(options: seq<ScannerOption>, env: Env) returns (s: Scanner, err: Option<string>)
    modifies OptionArrays(options)
    ensures err == OptionsError(options, env)
    ensures fresh(s) && (s.sem != null ==> fresh(s.sem))
    ensures err.None? ==> AppliedUpTo(s, options, |options|, env, old(Contents(options)))
    ensures DistinctArrays(options) ==> ArraysAfter(options, FailAt(options, env), old(Contents(options)), env.net)
  {
    ghost var orig := Contents(options);
    OptionsErrorAt(options, env);
    s := new Scanner();
    var i := 0;
    while i < |options|
      invariant 0 <= i <= |options| && i <= FailAt(options, env)
      invariant fresh(s) && (s.sem != null ==> fresh(s.sem))
      invariant AppliedUpTo(s, options, i, env, orig)
    {
      var e := ApplyNext(s, options, i, env, orig);
      if e.Some? {
        assert FailAt(options, env) == i;
        return s, Wrap(e, "apply option");
      }
      i := i + 1;
    }
    err := None;
  }

  /**
    New: applies the options in order and stops at the first error, wrapped
    "apply option"; otherwise makes the default semaphore if none was set
    and fills it. On success the nameservers are those of the last
    UseNameservers option (its array, rewritten in place, or resolv.conf's
    servers for an empty array) and the timeout is the last WithTimeout's.
    When no array is passed twice, every array of an option that ran is
    normalised entry by entry, and the others are untouched.
   */
  method New(options: seq<ScannerOption>, env: Env) returns (s: Scanner?, err: Option<string>)
    modifies OptionArrays(options)
    ensures err == OptionsError(options, env)
    ensures err.Some? <==> s == null
    ensures s != null ==> fresh(s) && s.Valid() && s.sem != null && fresh(s.sem)
    ensures s != null ==> s.sem.capacity == SemSize(options, env.numCPU) && s.sem.tokens == s.sem.capacity
    ensures s != null ==> s.nsidx == 0 && s.timeout == LastTimeout(options)
    ensures s != null && LastNameservers(options) == -1 ==> s.nameservers == []
    ensures var j := LastNameservers(options);
      s != null && j >= 0 && options[j].ns.Length > 0 ==> s.nameservers == options[j].ns[..]
    ensures var j := LastNameservers(options);
      s != null && j >= 0 && options[j].ns.Length == 0 ==> env.resolvConf.Ok? && s.nameservers == NormalizeAll(env.net, env.resolvConf.value)
    ensures DistinctArrays(options) ==> forall k :: 0 <= k < |options| && options[k].UseNameservers? ==>
      options[k].ns[..] == if k < FailAt(options, env) && options[k].ns.Length > 0 then NormalizeAll(env.net, old(options[k].ns[..])) else old(options[k].ns[..])
    ensures var j := LastNameservers(options);
      s != null && DistinctArrays(options) && j >= 0 && options[j].ns.Length > 0 ==> s.nameservers == NormalizeAll(env.net, old(options[j].ns[..]))
  {
    var sc;
    sc, err := ApplyOptions(options, env);
    assert options[..|options|] == options;
    if err.Some? {
      return null, err;
    }
    if sc.sem == null {
      sc.sem := new Semaphore(env.numCPU);
    }
    sc.sem.Fill();
    return sc, None;
  }

}

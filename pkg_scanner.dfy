/**
  The scanner object of pkg/scanner/scanner.go: the round-robin nameserver
  cursor, the nameserver normaliser, the semaphore that bounds concurrent
  scans, and `Scan` with its result cache and record-type dispatch.

  Times are integers in nanoseconds, passed in by the caller. The record
  lookups this revision calls (`getTypeA`, `getTypeCNAME`, `GetDNSRecords`,
  ...) are not in the same revision of the code; they are the functions of a
  `Lookups` value, each returning a value and possibly an error, as in Go.
 */
module PkgScanner {
  import opened Wrappers
  import opened Strings
  import opened Net
  import opened Rotation
  import opened Semaphores

  /** One second, in nanoseconds. */
  const Second: int := 1_000_000_000

  /** The freshness window of a cached result. */
  const CacheWindow: int := 60 * Second

  const FallbackNameservers: seq<string> := ["8.8.8.8:53", "8.8.4.4:53", "1.1.1.1:53"]

  /** The types GetDNSRecords is asked for under "all" and under every other record type. */
  const AllTypes: seq<string> := ["A", "AAAA", "BIMI", "CNAME", "DKIM", "DMARC", "MX", "SPF", "TXT"]
  const SecTypes: seq<string> := ["BIMI", "DKIM", "DMARC", "MX", "SPF"]

  datatype ScanResult = ScanResult(
    domain: string,
    a: seq<string>, aaaa: seq<string>,
    bimi: string, cname: string, dkim: string, dmarc: string,
    mx: seq<string>, spf: string, txt: seq<string>,
    duration: int,
    err: Option<string>,     // Err; `None` is nil
    error: string)           // Error, the text shown to users

  /** A result holding only the domain. */
  function Blank(name: string): ScanResult {
    ScanResult(name, [], [], "", "", "", "", [], "", [], 0, None, "")
  }

  /** The lookups a scan calls; each returns its value and its error, as Go does. */
  datatype Lookups = Lookups(
    getTypeA: string -> (seq<string>, Option<string>),
    getTypeAAAA: string -> (seq<string>, Option<string>),
    getTypeCNAME: string -> (string, Option<string>),
    getTypeMX: string -> (seq<string>, Option<string>),
    getTypeTXT: string -> (seq<string>, Option<string>),
    getDNSRecords: (ScanResult, seq<string>) -> (ScanResult, Option<string>))

  // ---------------------------------------------------------------------------
  // Record-type dispatch
  // ---------------------------------------------------------------------------

  /** The switch on the scanner's RecordType. */
  function Dispatch(recordType: string, name: string, look: Lookups): (r: ScanResult)
    ensures recordType == "a" ==> r == Blank(name).(a := look.getTypeA(name).0, err := Wrap(look.getTypeA(name).1, "A"))
    ensures recordType == "aaaa" ==> r == Blank(name).(a := look.getTypeAAAA(name).0, err := Wrap(look.getTypeAAAA(name).1, "AAAA"))
    ensures recordType == "cname" ==> r == Blank(name).(cname := look.getTypeCNAME(name).0, err := Wrap(look.getTypeCNAME(name).1, "CNAME"))
    ensures recordType == "mx" ==> r == Blank(name).(mx := look.getTypeMX(name).0, err := Wrap(look.getTypeMX(name).1, "MX"))
    ensures recordType == "txt" ==> r == Blank(name).(txt := look.getTypeTXT(name).0, err := Wrap(look.getTypeTXT(name).1, "TXT"))
    ensures recordType == "all" ==>
      var (f, e) := look.getDNSRecords(Blank(name), AllTypes); r == if e.Some? then f.(err := Wrap(e, "All")) else f
    ensures recordType !in {"a", "aaaa", "all", "cname", "mx", "txt"} ==>
      var (f, e) := look.getDNSRecords(Blank(name), SecTypes); r == if e.Some? then f.(err := Wrap(e, "All")) else f
  {
    var res := Blank(name);
    match recordType
    case "a" => var (v, e) := look.getTypeA(name); res.(a := v, err := Wrap(e, "A"))
    case "aaaa" => var (v, e) := look.getTypeAAAA(name); res.(a := v, err := Wrap(e, "AAAA"))
    case "all" => var (f, e) := look.getDNSRecords(res, AllTypes); if e.Some? then f.(err := Wrap(e, "All")) else f
    case "cname" => var (v, e) := look.getTypeCNAME(name); res.(cname := v, err := Wrap(e, "CNAME"))
    case "mx" => var (v, e) := look.getTypeMX(name); res.(mx := v, err := Wrap(e, "MX"))
    case "txt" => var (v, e) := look.getTypeTXT(name); res.(txt := v, err := Wrap(e, "TXT"))
    case _ => var (f, e) := look.getDNSRecords(res, SecTypes); if e.Some? then f.(err := Wrap(e, "All")) else f
  }

  /** The duration and the error text are filled after the lookups. */
  function Finish(res: ScanResult, elapsed: int): (r: ScanResult)
    ensures r == res.(duration := elapsed, error := r.error)
    ensures r.err.Some? ==> r.error == r.err.value
    ensures r.err.None? ==> r.error == res.error
  {
    res.(duration := elapsed, error := if res.err.Some? then res.err.value else res.error)
  }

  /**
    getDNSRecords only fills record fields of the result it is handed: the
    domain, the duration, Err and Error come back as they went in.
   */
  ghost predicate FillsRecordsOnly(look: Lookups) {
    forall res: ScanResult, types: seq<string> ::
      && look.getDNSRecords(res, types).0.domain == res.domain
      && look.getDNSRecords(res, types).0.duration == res.duration
      && look.getDNSRecords(res, types).0.err == res.err
      && look.getDNSRecords(res, types).0.error == res.error
  }

  /**
    With a fresh result, `Error` is the text of `Err`, and empty when there
    is none, whatever the record type.
   */
  lemma ErrorText(recordType: string, name: string, look: Lookups, elapsed: int)
    requires FillsRecordsOnly(look)
    ensures var r := Finish(Dispatch(recordType, name, look), elapsed);
      r.error == (if r.err.Some? then r.err.value else "")
  {
    var types := if recordType == "all" then AllTypes else SecTypes;
    var f := look.getDNSRecords(Blank(name), types).0;
    assert f.err == None && f.error == "";
  }

  // ---------------------------------------------------------------------------
  // Scan and its cache
  // ---------------------------------------------------------------------------

  datatype CachedResult = CachedResult(expiry: int, result: ScanResult)

  /** The test the cache applies: the entry's Expiry minus now is under 60 seconds. */
  predicate Fresh(c: CachedResult, now: int) {
    c.expiry - now < CacheWindow
  }

  /**
    Scan on values: the result and the new cache, for a scan of `name` that
    starts at `now` and takes `elapsed`.
   */
  function ScanSpec(cache: map<string, CachedResult>, enabled: bool, recordType: string,
                    name: string, now: int, elapsed: int, look: Lookups): (r: (ScanResult, map<string, CachedResult>))
    ensures !enabled ==> r.1 == cache && r.0 == Finish(Dispatch(recordType, name, look), elapsed)
    ensures enabled ==> name in r.1 && r.1[name].result == r.0
    ensures forall k :: k in cache && k != name ==> k in r.1 && r.1[k] == cache[k]
    ensures forall k :: k in r.1 && k != name ==> k in cache
  {
    if enabled && name in cache && Fresh(cache[name], now) then (cache[name].result, cache)
    else
      var kept := if enabled && name in cache then cache - {name} else cache;
      var res := Finish(Dispatch(recordType, name, look), elapsed);
      (res, if enabled then kept[name := CachedResult(now + elapsed, res)] else kept)
  }

  /**
    A result the cache stores is returned by every later scan of the same
    name, however much later and whatever the lookups would now say: the
    freshness test compares now with the insertion time.
   */
  lemma CachedForever(cache: map<string, CachedResult>, recordType: string, name: string,
                      now: int, elapsed: int, look: Lookups, later: int, elapsed2: int, look2: Lookups)
    requires later >= now + elapsed
    requires name in cache ==> cache[name].expiry <= later
    ensures var (res, c) := ScanSpec(cache, true, recordType, name, now, elapsed, look);
      ScanSpec(c, true, recordType, name, later, elapsed2, look2) == (res, c)
  {
  }

  /** A stale entry is replaced by a fresh scan; with the cache off nothing is stored. */
  lemma StaleReplaced(cache: map<string, CachedResult>, recordType: string, name: string,
                      now: int, elapsed: int, look: Lookups)
    requires name in cache && !Fresh(cache[name], now)
    ensures var (res, c) := ScanSpec(cache, true, recordType, name, now, elapsed, look);
      res == Finish(Dispatch(recordType, name, look), elapsed) && c == cache[name := CachedResult(now + elapsed, res)]
  {
    var kept := cache - {name};
    assert kept[name := CachedResult(now + elapsed, Finish(Dispatch(recordType, name, look), elapsed))]
        == cache[name := CachedResult(now + elapsed, Finish(Dispatch(recordType, name, look), elapsed))];
  }

  // ---------------------------------------------------------------------------
  // UseNameservers normalisation
  // ---------------------------------------------------------------------------

  /** One nameserver entry as UseNameservers rewrites it. */
  function NormalizeEntry(net: NetLib, s: string): (r: string)
    ensures net.splitHostPort(s).Some? && net.splitHostPort(s).value.port != "" ==> r == s
    ensures net.splitHostPort(s).Some? && net.splitHostPort(s).value.port == "" ==>
      r == JoinHostPort(net.splitHostPort(s).value.host, "53")
    ensures net.splitHostPort(s).None? && CountChar(s, ':') > 2 && '[' !in s ==> r == "[" + s + "]:53"
    ensures net.splitHostPort(s).None? && (CountChar(s, ':') <= 2 || '[' in s) ==> r == s + ":53"
  {
    match net.splitHostPort(s)
    case None =>
      ContainsChar(s, '[');
      if CountChar(s, ':') > 2 && !Contains(s, "[") then "[" + s + "]" + ":53" else s + ":53"
    case Some(hp) =>
      if hp.port == "" then JoinHostPort(hp.host, "53") else s
  }

  /** The list UseNameservers works on: the caller's, or resolv.conf's, or the fixed fallback. */
  function NameserverInput(given: seq<string>, resolvConf: Option<seq<string>>): seq<string> {
    if |given| > 0 then given else if resolvConf.Some? then resolvConf.value else FallbackNameservers
  }

  /** Every entry rewritten, in order. */
  function NormalizeAll(net: NetLib, xs: seq<string>): (ys: seq<string>)
    ensures |ys| == |xs|
    ensures forall i :: 0 <= i < |xs| ==> ys[i] == NormalizeEntry(net, xs[i])
  {
    seq(|xs|, i requires 0 <= i < |xs| => NormalizeEntry(net, xs[i]))
  }

  /** With unreadable resolv.conf and no servers given, the three fixed servers are used as they are. */
  lemma FallbackKept(net: NetLib)
    requires forall i :: 0 <= i < |FallbackNameservers| ==>
      net.splitHostPort(FallbackNameservers[i]).Some? && net.splitHostPort(FallbackNameservers[i]).value.port != ""
    ensures NormalizeAll(net, NameserverInput([], None)) == FallbackNameservers
  {
  }

  // ---------------------------------------------------------------------------
  // The scanner
  // ---------------------------------------------------------------------------

  datatype ScannerOption =
    | ConcurrentScans(n: int)
    | UseCache(enable: bool)
    | UseNameservers(ns: array<string>)

  /** What the options read from the machine. */
  datatype Env = Env(numCPU: nat, resolvConf: Option<seq<string>>, net: NetLib)

  class Scanner {
    var cache: map<string, CachedResult>
    var cacheEnabled: bool
    var nameservers: seq<string>
    var recordType: string
    var nsidx: uint32
    var sem: Semaphore?

    predicate Valid()
      reads this, sem
    {
      sem != null ==> sem.Valid()
    }

    constructor ()
      ensures Valid() && cache == map[] && !cacheEnabled && nameservers == [] && recordType == ""
      ensures nsidx == 0 && sem == null
    {
      cache, cacheEnabled, nameservers, recordType, nsidx, sem := map[], false, [], "", 0, null;
    }

    /** GetNS: advances the cursor and picks the server it points at. */
    method GetNS() returns (r: Option<string>)
      modifies this
      ensures nsidx == Cursor(old(nsidx), 1)
      ensures r == NSAt(nameservers, nsidx)
      ensures cache == old(cache) && cacheEnabled == old(cacheEnabled) && nameservers == old(nameservers)
      ensures recordType == old(recordType) && sem == old(sem)
    {
      nsidx := Next(nsidx);
      if |nameservers| == 0 {
        return None;
      }
      return Some(nameservers[nsidx as int % |nameservers|]);
    }

    /** The ConcurrentScans option: closes the old semaphore and makes an empty one of size n. */
    method SetConcurrentScans(n: int, env: Env)
      requires Valid()
      modifies this, sem
      ensures Valid() && sem != null && fresh(sem) && sem.tokens == 0
      ensures sem.capacity == if n <= 0 then env.numCPU else n
      ensures old(sem) != null ==> old(sem).closed
      ensures cache == old(cache) && cacheEnabled == old(cacheEnabled) && nameservers == old(nameservers)
      ensures recordType == old(recordType) && nsidx == old(nsidx)
    {
      var size: nat := if n <= 0 then env.numCPU else n;
      if sem != null {
        sem.Close();
      }
      sem := new Semaphore(size);
    }

    /** The UseCache option. */
    method SetUseCache(enable: bool)
      modifies this
      ensures enable ==> cache == map[] && cacheEnabled
      ensures !enable ==> cache == old(cache) && cacheEnabled == old(cacheEnabled)
      ensures nameservers == old(nameservers) && recordType == old(recordType) && nsidx == old(nsidx) && sem == old(sem)
    {
      if enable {
        cache := map[];
        cacheEnabled := true;
      }
    }

    /** The UseNameservers option: rewrites the caller's array in place when it is not empty. */
    method SetNameservers(ns: array<string>, env: Env)
      modifies this, ns
      ensures nameservers == NormalizeAll(env.net, NameserverInput(old(ns[..]), env.resolvConf))
      ensures ns.Length > 0 ==> ns[..] == nameservers
      ensures ns.Length == 0 ==> ns[..] == old(ns[..])
      ensures cache == old(cache) && cacheEnabled == old(cacheEnabled) && recordType == old(recordType)
      ensures nsidx == old(nsidx) && sem == old(sem)
    {
      ghost var input := NameserverInput(ns[..], env.resolvConf);
      var list := ns;
      if ns.Length == 0 {
        var first := if env.resolvConf.Some? then env.resolvConf.value else FallbackNameservers;
        list := new string[|first|](i requires 0 <= i < |first| => first[i]);
        assert list[..] == first;
      }
      var i := 0;
      while i < list.Length
        invariant 0 <= i <= list.Length && list.Length == |input|
        invariant list == ns || fresh(list)
        invariant list != ns ==> ns[..] == old(ns[..])
        invariant forall j :: 0 <= j < i ==> list[j] == NormalizeEntry(env.net, input[j])
        invariant list[i..] == input[i..]
        invariant unchanged(this)
      {
        list[i] := NormalizeEntry(env.net, list[i]);
        i := i + 1;
      }
      assert list[..] == NormalizeAll(env.net, input);
      nameservers := list[..];
    }

    /** One option applied to the scanner, as New calls it. */
    method Apply(o: ScannerOption, env: Env)
      requires Valid()
      modifies this, sem, if o.UseNameservers? then {o.ns} else {}
      ensures Valid() && recordType == old(recordType) && nsidx == old(nsidx)
      ensures o.ConcurrentScans? ==> sem != null && fresh(sem) && sem.tokens == 0 && sem.capacity == (if o.n <= 0 then env.numCPU else o.n)
      ensures !o.ConcurrentScans? ==> sem == old(sem) && (sem != null ==> sem.tokens == old(sem.tokens) && sem.capacity == old(sem.capacity))
      ensures o.UseCache? && o.enable ==> cache == map[] && cacheEnabled
      ensures !(o.UseCache? && o.enable) ==> cache == old(cache) && cacheEnabled == old(cacheEnabled)
      ensures o.UseNameservers? ==> nameservers == NormalizeAll(env.net, NameserverInput(old(o.ns[..]), env.resolvConf))
      ensures o.UseNameservers? && o.ns.Length > 0 ==> o.ns[..] == nameservers
      ensures o.UseNameservers? && o.ns.Length == 0 ==> o.ns[..] == old(o.ns[..])
      ensures !o.UseNameservers? ==> nameservers == old(nameservers)
    {
      match o {
        case ConcurrentScans(n) => SetConcurrentScans(n, env);
        case UseCache(enable) => SetUseCache(enable);
        case UseNameservers(ns) => SetNameservers(ns, env);
      }
    }

    /** The switch of Scan on RecordType: the lookups for one name, errors wrapped with the type. */
    method LookUp(name: string, look: Lookups) returns (r: ScanResult)
      ensures r == Dispatch(recordType, name, look)
    {
      r := Blank(name);
      match recordType {
        case "a" =>
          var (v, e) := look.getTypeA(r.domain);
          r := r.(a := v);
          if e.Some? { r := r.(err := Wrap(e, "A")); }
        case "aaaa" =>
          var (v, e) := look.getTypeAAAA(r.domain);
          r := r.(a := v);
          if e.Some? { r := r.(err := Wrap(e, "AAAA")); }
        case "all" =>
          var (f, e) := look.getDNSRecords(r, AllTypes);
          r := f;
          if e.Some? { r := r.(err := Wrap(e, "All")); }
        case "cname" =>
          var (v, e) := look.getTypeCNAME(r.domain);
          r := r.(cname := v);
          if e.Some? { r := r.(err := Wrap(e, "CNAME")); }
        case "mx" =>
          var (v, e) := look.getTypeMX(r.domain);
          r := r.(mx := v);
          if e.Some? { r := r.(err := Wrap(e, "MX")); }
        case "txt" =>
          var (v, e) := look.getTypeTXT(r.domain);
          r := r.(txt := v);
          if e.Some? { r := r.(err := Wrap(e, "TXT")); }
        case _ =>
          var (f, e) := look.getDNSRecords(r, SecTypes);
          r := f;
          if e.Some? { r := r.(err := Wrap(e, "All")); }
      }
    }

    /** Scan: answers from the cache while the entry is fresh, otherwise looks the name up and caches the result. */
    method Scan(name: string, now: int, elapsed: int, look: Lookups) returns (res: ScanResult)
      modifies this
      ensures (res, cache) == ScanSpec(old(cache), cacheEnabled, recordType, name, now, elapsed, look)
      ensures cacheEnabled == old(cacheEnabled) && nameservers == old(nameservers) && recordType == old(recordType)
      ensures nsidx == old(nsidx) && sem == old(sem)
    {
      if cacheEnabled && name in cache {
        var val := cache[name];
        if val.expiry - now < CacheWindow {
          return val.result;
        }
        cache := cache - {name};
      }
      var r := LookUp(name, look);
      r := r.(duration := elapsed);
      if r.err.Some? {
        r := r.(error := r.err.value);
      }
      if cacheEnabled {
        cache := cache[name := CachedResult(now + elapsed, r)];
      }
      return r;
    }

    /** One scan of the loop of start: take a token, scan, give the token back. */
    method ScanWithToken(name: string, now: int, elapsed: int, look: Lookups) returns (res: ScanResult, ok: bool)
      requires Valid() && sem != null
      modifies this, sem
      ensures Valid() && sem == old(sem) && sem.tokens == old(sem.tokens) && sem.capacity == old(sem.capacity)
      ensures ok <==> old(sem.tokens) > 0
      ensures ok ==> (res, cache) == ScanSpec(old(cache), cacheEnabled, recordType, name, now, elapsed, look)
      ensures !ok ==> cache == old(cache)
      ensures cacheEnabled == old(cacheEnabled) && recordType == old(recordType)
    {
      ok := sem.Acquire();
      if !ok {
        return Blank(name), false;
      }
      res := Scan(name, now, elapsed, look);
      var back := sem.Release();
    }

    /**
      The loop of start, one scan after another: each scan takes a token
      before it starts and gives it back when it is done, so the number of
      tokens is the same after every scan. `blocked` reports a receive that
      would wait forever (no token and nothing running).
     */
    method Start(names: seq<string>, times: seq<int>, elapsed: int, look: Lookups) returns (results: seq<ScanResult>, blocked: bool)
      requires Valid() && sem != null && |times| == |names|
      modifies this, sem
      ensures Valid() && sem == old(sem) && sem.tokens == old(sem.tokens) && sem.capacity == old(sem.capacity)
      ensures blocked <==> |names| > 0 && old(sem.tokens) == 0
      ensures !blocked ==> (results, cache) == ScanAll(old(cache), cacheEnabled, recordType, names, times, elapsed, look)
      ensures cacheEnabled == old(cacheEnabled) && recordType == old(recordType)
    {
      ghost var c0, en, rt := cache, cacheEnabled, recordType;
      results := [];
      blocked := false;
      var i := 0;
      while i < |names|
        invariant 0 <= i <= |names|
        invariant Valid() && sem == old(sem) && sem.tokens == old(sem.tokens) && sem.capacity == old(sem.capacity)
        invariant i > 0 ==> old(sem.tokens) > 0
        invariant cacheEnabled == old(cacheEnabled) && recordType == old(recordType)
        invariant (results, cache) == ScanAll(c0, en, rt, names[..i], times[..i], elapsed, look)
      {
        ghost var before := cache;
        var r, ok := ScanWithToken(names[i], times[i], elapsed, look);
        if !ok {
          return results, true;
        }
        ScanAllStep(c0, en, rt, names, times, i, elapsed, look, results, before, r, cache);
        results := results + [r];
        i := i + 1;
      }
      assert names[..i] == names && times[..i] == times;
      assert (results, cache) == ScanAll(c0, en, rt, names, times, elapsed, look);
    }
  }

  /** Scans of several names in sequence on values, threading the cache. */
  function ScanAll(cache: map<string, CachedResult>, enabled: bool, recordType: string,
                   names: seq<string>, times: seq<int>, elapsed: int, look: Lookups): (r: (seq<ScanResult>, map<string, CachedResult>))
    requires |times| == |names|
    ensures |r.0| == |names|
    decreases |names|
  {
    if |names| == 0 then ([], cache)
    else
      var (res, c) := ScanSpec(cache, enabled, recordType, names[0], times[0], elapsed, look);
      var (rest, c2) := ScanAll(c, enabled, recordType, names[1..], times[1..], elapsed, look);
      ([res] + rest, c2)
  }

  /**
    What a run of scans does: with the cache off, each name gets a fresh
    lookup and the cache is untouched; with it on, every name scanned ends
    up cached. Either way, entries for names not scanned stay as they were,
    and nothing but scanned names is added.
   */
  lemma {:induction false} ScanAllEffect(cache: map<string, CachedResult>, enabled: bool, recordType: string,
                                         names: seq<string>, times: seq<int>, elapsed: int, look: Lookups)
    requires |times| == |names|
    ensures var (rs, c) := ScanAll(cache, enabled, recordType, names, times, elapsed, look);
      && (!enabled ==> c == cache)
      && (!enabled ==> forall i :: 0 <= i < |names| ==> rs[i] == Finish(Dispatch(recordType, names[i], look), elapsed))
      && (enabled ==> forall i :: 0 <= i < |names| ==> names[i] in c)
      && (forall k :: k in cache && k !in names ==> k in c && c[k] == cache[k])
      && (forall k :: k in c ==> k in cache || k in names)
    decreases |names|
  {
    if |names| > 0 {
      var (res, c1) := ScanSpec(cache, enabled, recordType, names[0], times[0], elapsed, look);
      ScanAllEffect(c1, enabled, recordType, names[1..], times[1..], elapsed, look);
      var (rest, c2) := ScanAll(c1, enabled, recordType, names[1..], times[1..], elapsed, look);
      assert ScanAll(cache, enabled, recordType, names, times, elapsed, look) == ([res] + rest, c2);
      forall i | 1 <= i < |names|
        ensures names[i] == names[1..][i - 1]
      {
      }
      if enabled {
        assert names[0] in c1;
        if names[0] !in names[1..] {
          assert names[0] in c2;
        }
      }
      forall k | k in c2
        ensures k in cache || k in names
      {
        if k !in names[1..] {
          assert k in c1;
        } else {
          var j :| 0 <= j < |names[1..]| && names[1..][j] == k;
          assert names[j + 1] == k;
        }
      }
    }
  }

  /** One more scan at the end of a sequence. */
  lemma {:induction false} ScanAllSnoc(cache: map<string, CachedResult>, enabled: bool, recordType: string,
                   names: seq<string>, times: seq<int>, name: string, time: int, elapsed: int, look: Lookups)
    requires |times| == |names|
    ensures var (rs, c) := ScanAll(cache, enabled, recordType, names, times, elapsed, look);
      var (r, c2) := ScanSpec(c, enabled, recordType, name, time, elapsed, look);
      ScanAll(cache, enabled, recordType, names + [name], times + [time], elapsed, look) == (rs + [r], c2)
    decreases |names|
  {
    if |names| == 0 {
      assert names + [name] == [name] && times + [time] == [time];
      assert [name][1..] == [] && [time][1..] == [];
      var (r, c2) := ScanSpec(cache, enabled, recordType, name, time, elapsed, look);
      assert ScanAll(c2, enabled, recordType, [], [], elapsed, look) == ([], c2);
      assert ScanAll(cache, enabled, recordType, [name], [time], elapsed, look) == ([r] + [], c2);
      assert ScanAll(cache, enabled, recordType, names, times, elapsed, look) == ([], cache);
      assert [r] + [] == [] + [r];
    } else {
      var (res, c) := ScanSpec(cache, enabled, recordType, names[0], times[0], elapsed, look);
      ScanAllSnoc(c, enabled, recordType, names[1..], times[1..], name, time, elapsed, look);
      SnocTail(names, name);
      SnocTail(times, time);
      var (rest, c2) := ScanAll(c, enabled, recordType, names[1..], times[1..], elapsed, look);
      ConsSnoc(res, rest, ScanSpec(c2, enabled, recordType, name, time, elapsed, look).0);
    }
  }

  /** The loop step of start: the scans of the first i+1 names, from those of the first i. */
  lemma ScanAllStep(cache: map<string, CachedResult>, enabled: bool, recordType: string,
                    names: seq<string>, times: seq<int>, i: nat, elapsed: int, look: Lookups,
                    rs: seq<ScanResult>, c: map<string, CachedResult>, r: ScanResult, c2: map<string, CachedResult>)
    requires |times| == |names| && i < |names|
    requires (rs, c) == ScanAll(cache, enabled, recordType, names[..i], times[..i], elapsed, look)
    requires (r, c2) == ScanSpec(c, enabled, recordType, names[i], times[i], elapsed, look)
    ensures (rs + [r], c2) == ScanAll(cache, enabled, recordType, names[..i + 1], times[..i + 1], elapsed, look)
  {
    ScanAllSnoc(cache, enabled, recordType, names[..i], times[..i], names[i], times[i], elapsed, look);
    TakeSnoc(names, i);
    TakeSnoc(times, i);
  }

  /** With the cache on, a second scan of a name in one run returns the first scan's result. */
  lemma RepeatServedFromCache(cache: map<string, CachedResult>, recordType: string, name: string,
                              t1: int, t2: int, elapsed: int, look: Lookups)
    requires t2 >= t1 + elapsed
    requires name in cache ==> cache[name].expiry <= t2
    ensures var (rs, _) := ScanAll(cache, true, recordType, [name, name], [t1, t2], elapsed, look);
      rs[1] == rs[0]
  {
    var (r1, c1) := ScanSpec(cache, true, recordType, name, t1, elapsed, look);
    CachedForever(cache, recordType, name, t1, elapsed, look, t2, elapsed, look);
    assert [name, name][1..] == [name] && [t1, t2][1..] == [t2];
  }

  /** The capacity New gives the semaphore: the last ConcurrentScans option's, or the CPU count. */
  function SemSize(options: seq<ScannerOption>, numCPU: nat): (n: nat)
    ensures (forall i :: 0 <= i < |options| ==> !options[i].ConcurrentScans?) ==> n == numCPU
    decreases |options|
  {
    if |options| == 0 then numCPU
    else match options[|options| - 1]
      case ConcurrentScans(k) => if k <= 0 then numCPU else k
      case _ => SemSize(options[..|options| - 1], numCPU)
  }

  /** Whether some option turns the cache on; UseCache(false) changes nothing. */
  predicate CacheOn(options: seq<ScannerOption>) {
    exists i :: 0 <= i < |options| && options[i] == UseCache(true)
  }

  /** The position of the last UseNameservers option, or -1 when there is none. */
  function LastNameservers(options: seq<ScannerOption>): (j: int)
    ensures -1 <= j < |options|
    ensures j >= 0 ==> options[j].UseNameservers?
    ensures forall k :: j < k < |options| ==> !options[k].UseNameservers?
    decreases |options|
  {
    if |options| == 0 then -1
    else if options[|options| - 1].UseNameservers? then |options| - 1
    else LastNameservers(options[..|options| - 1])
  }

  /** No array is passed to two UseNameservers options. */
  predicate DistinctArrays(options: seq<ScannerOption>) {
    forall a, b :: 0 <= a < b < |options| && options[a].UseNameservers? && options[b].UseNameservers? ==>
      options[a].ns != options[b].ns
  }

  /** The arrays the UseNameservers options may rewrite. */
  function OptionArrays(options: seq<ScannerOption>): set<array<string>> {
    set o | o in options && o.UseNameservers? :: o.ns
  }

  /** The current contents of each option's array; [] for the other options. */
  ghost function Contents(options: seq<ScannerOption>): (c: seq<seq<string>>)
    reads OptionArrays(options)
    ensures |c| == |options|
    ensures forall k :: 0 <= k < |options| && options[k].UseNameservers? ==> c[k] == options[k].ns[..]
  {
    seq(|options|, k requires 0 <= k < |options| reads OptionArrays(options) =>
      if options[k].UseNameservers? then options[k].ns[..] else [])
  }

  /** The arrays after the first i options: each non-empty one among them normalised, the rest as they were. */
  ghost predicate ArraysAfter(options: seq<ScannerOption>, i: nat, orig: seq<seq<string>>, net: NetLib)
    requires |orig| == |options|
    reads OptionArrays(options)
  {
    forall k :: 0 <= k < |options| && options[k].UseNameservers? ==>
      options[k].ns[..] == if k < i && options[k].ns.Length > 0 then NormalizeAll(net, orig[k]) else orig[k]
  }

  /**
    The nameservers after the first i options: none without a UseNameservers
    option; otherwise the last one's array, or the normalised resolv.conf or
    fallback list when that array is empty.
   */
  ghost predicate NameserversAfter(s: Scanner, options: seq<ScannerOption>, i: nat, env: Env)
    requires i <= |options|
    reads s, OptionArrays(options)
  {
    var j := LastNameservers(options[..i]);
    && (j == -1 ==> s.nameservers == [])
    && (j >= 0 && options[j].ns.Length > 0 ==> s.nameservers == options[j].ns[..])
    && (j >= 0 && options[j].ns.Length == 0 ==> s.nameservers == NormalizeAll(env.net, NameserverInput([], env.resolvConf)))
  }

  /** The scanner after the first i options of New, with empty semaphore. */
  ghost predicate AppliedUpTo(s: Scanner, options: seq<ScannerOption>, i: nat, env: Env, orig: seq<seq<string>>)
    requires i <= |options| && |orig| == |options|
    reads s, s.sem, OptionArrays(options)
  {
    && s.Valid()
    && (s.sem != null ==> s.sem.tokens == 0 && s.sem.capacity == SemSize(options[..i], env.numCPU))
    && (s.sem == null ==> SemSize(options[..i], env.numCPU) == env.numCPU)
    && (s.cacheEnabled <==> CacheOn(options[..i]))
    && s.cache == map[] && s.nsidx == 0 && s.recordType == ""
    && NameserversAfter(s, options, i, env)
    && (DistinctArrays(options) ==> ArraysAfter(options, i, orig, env.net))
  }

  /** One round of the option loop: option i applied. */
  method ApplyNext(s: Scanner, options: seq<ScannerOption>, i: nat, env: Env, ghost orig: seq<seq<string>>)
    requires i < |options| && |orig| == |options|
    requires AppliedUpTo(s, options, i, env, orig)
    modifies s, s.sem, if options[i].UseNameservers? then {options[i].ns} else {}
    ensures AppliedUpTo(s, options, i + 1, env, orig)
    ensures s.sem == old(s.sem) || fresh(s.sem)
  {
    assert options[..i + 1][..i] == options[..i];
    assert options[..i + 1][i] == options[i];
    s.Apply(options[i], env);
    if CacheOn(options[..i + 1]) && !CacheOn(options[..i]) {
      assert options[i] == UseCache(true);
    }
    if DistinctArrays(options) {
      forall k | 0 <= k < |options| && options[k].UseNameservers?
        ensures options[k].ns[..] == if k < i + 1 && options[k].ns.Length > 0 then NormalizeAll(env.net, orig[k]) else orig[k]
      {
        if k != i && options[i].UseNameservers? {
          assert options[k].ns != options[i].ns;
        }
      }
    }
  }

  /** The option loop of New: each option applied to the scanner in turn. */
  method ApplyOptions(options: seq<ScannerOption>, env: Env) returns (s: Scanner)
    modifies OptionArrays(options)
    ensures fresh(s) && (s.sem != null ==> fresh(s.sem))
    ensures AppliedUpTo(s, options, |options|, env, old(Contents(options)))
  {
    ghost var orig := Contents(options);
    s := new Scanner();
    var i := 0;
    while i < |options|
      invariant 0 <= i <= |options|
      invariant fresh(s) && (s.sem != null ==> fresh(s.sem))
      invariant AppliedUpTo(s, options, i, env, orig)
    {
      ApplyNext(s, options, i, env, orig);
      i := i + 1;
    }
  }

  /**
    New: applies the options in order, then makes the default semaphore if
    none was set, and fills it.
   */
  method New(options: seq<ScannerOption>, env: Env) returns (s: Scanner)
    modifies OptionArrays(options)
    ensures fresh(s) && s.Valid() && s.sem != null && fresh(s.sem)
    ensures s.sem.capacity == SemSize(options, env.numCPU) && s.sem.tokens == s.sem.capacity
    ensures s.cacheEnabled <==> CacheOn(options)
    ensures s.cache == map[] && s.nsidx == 0 && s.recordType == ""
    ensures LastNameservers(options) == -1 ==> s.nameservers == []
    ensures var j := LastNameservers(options);
      j >= 0 && options[j].ns.Length > 0 ==> s.nameservers == options[j].ns[..]
    ensures var j := LastNameservers(options);
      j >= 0 && options[j].ns.Length == 0 ==> s.nameservers == NormalizeAll(env.net, NameserverInput([], env.resolvConf))
    ensures DistinctArrays(options) ==> forall k :: 0 <= k < |options| && options[k].UseNameservers? ==>
      options[k].ns[..] == if options[k].ns.Length > 0 then NormalizeAll(env.net, old(options[k].ns[..])) else old(options[k].ns[..])
    ensures var j := LastNameservers(options);
      DistinctArrays(options) && j >= 0 ==> s.nameservers == NormalizeAll(env.net, NameserverInput(old(options[j].ns[..]), env.resolvConf))
  {
    s := ApplyOptions(options, env);
    assert options[..|options|] == options;
    if s.sem == null {
      s.sem := new Semaphore(env.numCPU);
    }
    s.sem.Fill();
  }
}

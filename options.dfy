/**
  Functional options of pkg/scanner/options.go: the DKIM selector validator,
  nameserver `host:port` normalisation, and the setters that configure a
  scanner. Each setter is specified by a function on a `Settings` value; the
  `Scanner` class holds the same fields and its methods are proved against
  those functions.
 */
module Options {
  import opened Wrappers
  import opened Strings
  import opened Net

  newtype uint16 = x: int | 0 <= x < 0x1_0000

  /** The largest EDNS0 buffer the scanner recommends (RFC 6891 section 6.2.5). */
  const MaxDNSBuffer: int := 4096

  const BufferWarning := "buffer size should not be larger than 4096"

  /** Used when no nameservers are given and /etc/resolv.conf cannot be read. */
  const FallbackNameservers: seq<string> := ["8.8.8.8:53", "8.8.4.4:53", "1.1.1.1:53"]

  /** What the option closures read from the environment. */
  datatype Env = Env(numCPU: nat, resolvConf: Option<seq<string>>, net: NetLib)

  // ---------------------------------------------------------------------------
  // validateDKIMSelector
  // ---------------------------------------------------------------------------

  /** Number of bytes of the UTF-8 encoding of one character. */
  function CharBytes(c: char): (n: nat)
    ensures 1 <= n <= 4
    ensures n == 1 <==> c as int < 0x80
  {
    if c as int < 0x80 then 1 else if c as int < 0x800 then 2 else if c as int < 0x1_0000 then 3 else 4
  }

  /** Go's len of a string: its UTF-8 byte length. */
  function Utf8Len(s: string): (n: nat)
    ensures n >= |s|
    ensures n == 0 <==> |s| == 0
    decreases |s|
  {
    if |s| == 0 then 0 else Utf8Len(s[..|s| - 1]) + CharBytes(s[|s| - 1])
  }

  /** Characters a selector may hold. */
  predicate SelectorChar(c: char) {
    ('a' <= c <= 'z') || ('0' <= c <= '9') || c == '-' || ('A' <= c <= 'Z') || c == '.' || c == '_'
  }

  datatype SelectorError =
    | Empty
    | TooLong(length: nat)                 // byte length
    | BadStart(first: char)
    | BadEnd(last: char)
    | BadChar(bad: char, offset: nat)      // byte offset of the character
  {
    function Message(): string {
      match this
      case Empty => "DKIM selector is empty"
      case TooLong(n) => "DKIM selector length is " + NatToString(n) + ", can't exceed 63"
      case BadStart(c) => "DKIM selector should not start with '" + [c] + "'"
      case BadEnd(c) => "DKIM selector should not end with '" + [c] + "'"
      case BadChar(c, i) => "DKIM selector has invalid character '" + [c] + "' at offset " + NatToString(i)
    }
  }

  /** Index of the first character that is not a selector character, or -1. */
  function FirstBadChar(s: string): (i: int)
    ensures -1 <= i < |s|
    ensures 0 <= i ==> !SelectorChar(s[i])
    ensures forall j :: 0 <= j < |s| && (i < 0 || j < i) ==> SelectorChar(s[j])
    decreases |s|
  {
    if |s| == 0 then -1
    else if !SelectorChar(s[0]) then 0
    else
      var j := FirstBadChar(s[1..]);
      if j < 0 then -1 else j + 1
  }

  /** A selector as a DNS label of RFC 6376 section 3.1, with `.` and `_` allowed inside. */
  predicate ValidSelector(s: string) {
    && 1 <= |s| <= 63
    && s[0] != '.' && s[0] != '_'
    && s[|s| - 1] != '.' && s[|s| - 1] != '_'
    && forall i :: 0 <= i < |s| ==> SelectorChar(s[i])
  }

  /** A string of ASCII characters has as many bytes as characters. */
  lemma {:induction false} AsciiLength(s: string)
    requires forall i :: 0 <= i < |s| ==> s[i] as int < 0x80
    ensures Utf8Len(s) == |s|
    decreases |s|
  {
    if |s| > 0 {
      AsciiLength(s[..|s| - 1]);
    }
  }

  /** More than 63 bytes is never a valid selector. */
  lemma OverlongInvalid(s: string)
    requires Utf8Len(s) > 63
    ensures !ValidSelector(s)
  {
    if forall i :: 0 <= i < |s| ==> SelectorChar(s[i]) {
      AsciiLength(s);
    }
  }

  /**
    The checks of validateDKIMSelector, in the order the code makes them. It
    accepts exactly the valid selectors; an over-long selector is reported as
    too long whatever its characters, with its length in bytes.
   */
  function SelectorCheck(s: string): (e: Option<SelectorError>)
    ensures e.None? <==> ValidSelector(s)
    ensures e == Some(Empty) <==> |s| == 0
    ensures |s| > 0 && Utf8Len(s) > 63 <==> e.Some? && e.value.TooLong?
    ensures e.Some? && e.value.TooLong? ==> e.value.length == Utf8Len(s)
    ensures e.Some? && e.value.BadChar? ==> exists i :: (0 <= i < |s| && !SelectorChar(s[i])
      && (forall j :: 0 <= j < i ==> SelectorChar(s[j]))
      && e.value == BadChar(s[i], Utf8Len(s[..i])))
  {
    if |s| == 0 then Some(Empty)
    else if Utf8Len(s) > 63 then
      OverlongInvalid(s);
      Some(TooLong(Utf8Len(s)))
    else if s[0] == '.' || s[0] == '_' then Some(BadStart(s[0]))
    else if s[|s| - 1] == '.' || s[|s| - 1] == '_' then Some(BadEnd(s[|s| - 1]))
    else
      var i := FirstBadChar(s);
      if i < 0 then
        AsciiLength(s);
        None
      else Some(BadChar(s[i], Utf8Len(s[..i])))
  }

  /** validateDKIMSelector, with its loop over the characters and their byte offsets. */
  method ValidateDKIMSelector(selector: string) returns (err: Option<SelectorError>)
    ensures err == SelectorCheck(selector)
  {
    var n := Utf8Len(selector);
    if n == 0 {
      return Some(Empty);
    }
    if n > 63 {
      return Some(TooLong(n));
    }
    if selector[0] == '.' || selector[0] == '_' {
      return Some(BadStart(selector[0]));
    }
    if selector[|selector| - 1] == '.' || selector[|selector| - 1] == '_' {
      return Some(BadEnd(selector[|selector| - 1]));
    }
    var i := 0;
    var offset := 0;
    while i < |selector|
      invariant 0 <= i <= |selector|
      invariant offset == Utf8Len(selector[..i])
      invariant forall j :: 0 <= j < i ==> SelectorChar(selector[j])
    {
      var c := selector[i];
      if !SelectorChar(c) {
        assert FirstBadChar(selector) == i;
        return Some(BadChar(c, offset));
      }
      assert selector[..i + 1][..i] == selector[..i];
      offset := offset + CharBytes(c);
      i := i + 1;
    }
    return None;
  }

  // ---------------------------------------------------------------------------
  // The option setters on a value
  // ---------------------------------------------------------------------------

  /** The scanner fields the options write; `warnings` are the logger's warnings. */
  datatype Settings = Settings(
    cacheDuration: int,
    poolSize: uint16,
    dkimSelectors: seq<string>,
    dnsBuffer: uint16,
    nameservers: seq<string>,
    warnings: seq<string>)

  /** The result of an option: the new settings and the error, if any. */
  datatype Applied = Applied(settings: Settings, err: Option<string>)

  /** WithConcurrentScans: zero means the number of CPUs, truncated to 16 bits. */
  function ConcurrentScans(st: Settings, quota: uint16, numCPU: nat): (r: Settings)
    ensures r == st.(poolSize := r.poolSize)
    ensures quota != 0 ==> r.poolSize == quota
    ensures quota == 0 ==> r.poolSize as int == numCPU % 0x1_0000
  {
    st.(poolSize := if quota == 0 then (numCPU % 0x1_0000) as uint16 else quota)
  }

  /** WithDNSBuffer: any value is stored; one above 4096 only adds a warning. */
  function DNSBuffer(st: Settings, size: uint16): (r: Settings)
    ensures r.dnsBuffer == size
    ensures r == st.(dnsBuffer := size, warnings := r.warnings)
    ensures size as int > MaxDNSBuffer ==> r.warnings == st.warnings + [BufferWarning]
    ensures size as int <= MaxDNSBuffer ==> r.warnings == st.warnings
  {
    st.(dnsBuffer := size, warnings := st.warnings + if size as int > MaxDNSBuffer then [BufferWarning] else [])
  }

  /** Index of the first selector the validator rejects, or -1. */
  function FirstInvalid(selectors: seq<string>): (i: int)
    ensures -1 <= i < |selectors|
    ensures 0 <= i ==> SelectorCheck(selectors[i]).Some?
    ensures forall j :: 0 <= j < |selectors| && (i < 0 || j < i) ==> SelectorCheck(selectors[j]).None?
    decreases |selectors|
  {
    if |selectors| == 0 then -1
    else if SelectorCheck(selectors[0]).Some? then 0
    else
      var j := FirstInvalid(selectors[1..]);
      if j < 0 then -1 else j + 1
  }

  /** WithDKIMSelectors. */
  function DKIMSelectors(st: Settings, selectors: seq<string>): Applied {
    if |selectors| == 0 then Applied(st, Some("no DKIM selectors provided"))
    else
      var i := FirstInvalid(selectors);
      if 0 <= i then Applied(st, Some("invalid DKIM selector: " + SelectorCheck(selectors[i]).value.Message()))
      else Applied(st.(dkimSelectors := selectors), None)
  }

  /**
    WithDKIMSelectors stores the list exactly when it is non-empty and every
    selector is valid; otherwise it fails and changes nothing.
   */
  lemma DKIMSelectorsStores(st: Settings, selectors: seq<string>)
    ensures var a := DKIMSelectors(st, selectors);
      && (a.err.None? <==> |selectors| > 0 && forall i :: 0 <= i < |selectors| ==> ValidSelector(selectors[i]))
      && (a.err.None? ==> a.settings == st.(dkimSelectors := selectors))
      && (a.err.Some? ==> a.settings == st)
      && (|selectors| == 0 ==> a.err == Some("no DKIM selectors provided"))
  {
  }

  /** The message of an invalid selector names the problem of the first such selector. */
  lemma DKIMSelectorsReportsFirst(st: Settings, selectors: seq<string>, k: nat)
    requires k < |selectors| && SelectorCheck(selectors[k]).Some?
    requires forall j :: 0 <= j < k ==> SelectorCheck(selectors[j]).None?
    ensures DKIMSelectors(st, selectors).err == Some("invalid DKIM selector: " + SelectorCheck(selectors[k]).value.Message())
  {
    var i := FirstInvalid(selectors);
    assert 0 <= i by {
      assert !(i < 0 || k < i) ==> 0 <= i;
    }
    assert i == k;
  }

  // ---------------------------------------------------------------------------
  // WithNameservers
  // ---------------------------------------------------------------------------

  function InvalidIP(s: string): string {
    "invalid IP address: " + s
  }

  /** One nameserver entry rewritten to `ip:port`; a bare address gets port 53. */
  function Normalize(net: NetLib, s: string): (r: Result<string, string>)
    ensures r.Err? ==> r.error == InvalidIP(s)
  {
    match net.parseAddr(s)
    case Some(a) => Ok(Render(a, "53"))
    case None =>
      match net.splitHostPort(s)
      case None => Err(InvalidIP(s))
      case Some(hp) =>
        match net.parseAddr(hp.host)
        case None => Err(InvalidIP(s))
        case Some(a) => Ok(Render(a, hp.port))
  }

  /** Normalising a normalised entry changes nothing. */
  lemma NormalizeIdempotent(net: NetLib, s: string)
    requires Lawful(net)
    requires Normalize(net, s).Ok?
    ensures Normalize(net, Normalize(net, s).value) == Normalize(net, s)
  {
    match net.parseAddr(s)
    case Some(a) =>
      assert net.parseAddr(a.text) == Some(a);
      assert net.parseAddr(Render(a, "53")).None?;
    case None =>
      var hp := net.splitHostPort(s).value;
      var a := net.parseAddr(hp.host).value;
      assert net.parseAddr(a.text) == Some(a);
      assert net.parseAddr(Render(a, hp.port)).None?;
  }

  /** A bare address gets port 53, bracketed if it is IPv6; a `host:port` keeps its port. */
  lemma NormalizePorts(net: NetLib, s: string)
    ensures net.parseAddr(s).Some? ==>
      var a := net.parseAddr(s).value;
      Normalize(net, s) == Ok(if a.is6 then "[" + a.text + "]:53" else a.text + ":53")
    ensures net.parseAddr(s).None? && net.splitHostPort(s).Some? && net.parseAddr(net.splitHostPort(s).value.host).Some? ==>
      var hp := net.splitHostPort(s).value;
      var a := net.parseAddr(hp.host).value;
      Normalize(net, s) == Ok(if a.is6 then "[" + a.text + "]:" + hp.port else a.text + ":" + hp.port)
    ensures net.parseAddr(s).None? && (net.splitHostPort(s).None? || net.parseAddr(net.splitHostPort(s).value.host).None?) ==>
      Normalize(net, s) == Err(InvalidIP(s))
  {
    if net.parseAddr(s).Some? {
      var a := net.parseAddr(s).value;
      assert "[" + a.text + "]:" + "53" == "[" + a.text + "]:53";
      assert a.text + ":" + "53" == a.text + ":53";
    }
  }

  /**
    The caller's slice after the loop: entries before the first failing one
    are rewritten, the rest are as given; `failure` is the error of that entry.
   */
  datatype Normalized = Normalized(list: seq<string>, failure: Option<string>)

  function NormalizeList(net: NetLib, xs: seq<string>): (n: Normalized)
    ensures |n.list| == |xs|
    decreases |xs|
  {
    if |xs| == 0 then Normalized([], None)
    else
      match Normalize(net, xs[0])
      case Err(e) => Normalized(xs, Some(e))
      case Ok(v) =>
        var rest := NormalizeList(net, xs[1..]);
        Normalized([v] + rest.list, rest.failure)
  }

  /** The loop succeeds exactly when every entry normalises, and then rewrites each entry. */
  lemma {:induction false} NormalizeListSucceeds(net: NetLib, xs: seq<string>)
    ensures NormalizeList(net, xs).failure.None? <==> forall i :: 0 <= i < |xs| ==> Normalize(net, xs[i]).Ok?
    ensures NormalizeList(net, xs).failure.None? ==>
      forall i :: 0 <= i < |xs| ==> NormalizeList(net, xs).list[i] == Normalize(net, xs[i]).value
    decreases |xs|
  {
    if |xs| > 0 {
      NormalizeListSucceeds(net, xs[1..]);
      if Normalize(net, xs[0]).Ok? {
        forall i | 1 <= i < |xs| ensures xs[1..][i - 1] == xs[i] { }
      }
    }
  }

  /** The loop of WithNameservers: each entry rewritten in place, up to the first that does not normalise. */
  method NormalizeInPlace(list: array<string>, net: NetLib) returns (failure: Option<string>)
    modifies list
    ensures Normalized(list[..], failure) == NormalizeList(net, old(list[..]))
  {
    ghost var input := list[..];
    var index := 0;
    while index < list.Length
      invariant 0 <= index <= list.Length
      invariant forall i :: 0 <= i < index ==> Normalize(net, input[i]).Ok? && list[i] == Normalize(net, input[i]).value
      invariant list[index..] == input[index..]
    {
      var r := Normalize(net, list[index]);
      if r.Err? {
        NormalizeListStops(net, input, index);
        assert list[..] == list[..index] + list[index..];
        return Some(r.error);
      }
      list[index] := r.value;
      index := index + 1;
    }
    NormalizeListSucceeds(net, input);
    assert list[..] == NormalizeList(net, input).list;
    return None;
  }

  /**
    At the first entry that does not normalise the loop stops with that
    entry's error: the entries before it are rewritten, it and the rest are kept.
   */
  lemma {:induction false} NormalizeListStops(net: NetLib, xs: seq<string>, k: nat)
    requires k < |xs| && Normalize(net, xs[k]).Err?
    requires forall i :: 0 <= i < k ==> Normalize(net, xs[i]).Ok?
    ensures var n := NormalizeList(net, xs);
      && n.failure == Some(InvalidIP(xs[k]))
      && (forall i :: 0 <= i < k ==> n.list[i] == Normalize(net, xs[i]).value)
      && n.list[k..] == xs[k..]
    decreases k
  {
    if k > 0 {
      forall i | 0 <= i < k - 1 ensures Normalize(net, xs[1..][i]).Ok? {
        assert xs[1..][i] == xs[i + 1];
      }
      NormalizeListStops(net, xs[1..], k - 1);
      var rest := NormalizeList(net, xs[1..]);
      var n := NormalizeList(net, xs);
      assert n.list == [Normalize(net, xs[0]).value] + rest.list;
      forall i | 0 < i < k ensures n.list[i] == Normalize(net, xs[i]).value {
        assert xs[1..][i - 1] == xs[i];
      }
      assert n.list[k..] == rest.list[k - 1..];
      assert xs[k..] == xs[1..][k - 1..];
    }
  }

  /** An empty list falls back to resolv.conf, then to the fixed servers. */
  function NameserverSource(given: seq<string>, env: Env): Option<seq<string>> {
    if |given| > 0 then Some(given) else env.resolvConf
  }

  /** WithNameservers on a value: the new settings and the caller's slice afterwards. */
  function Nameservers(st: Settings, given: seq<string>, env: Env): (r: (Applied, seq<string>))
    ensures |given| == 0 && env.resolvConf.None? ==> r.0 == Applied(st.(nameservers := FallbackNameservers), None)
    ensures |given| == 0 ==> r.1 == given
    ensures |given| > 0 ==> r.1 == NormalizeList(env.net, given).list
    ensures r.0.err.Some? ==> r.0.settings == st
    ensures r.0.err.None? ==> r.0.settings.nameservers == (if |given| == 0 && env.resolvConf.None? then FallbackNameservers
      else NormalizeList(env.net, NameserverSource(given, env).value).list)
  {
    match NameserverSource(given, env)
    case None => (Applied(st.(nameservers := FallbackNameservers), None), given)
    case Some(list) =>
      var n := NormalizeList(env.net, list);
      var after := if |given| > 0 then n.list else given;
      match n.failure
      case Some(e) => (Applied(st, Some(e)), after)
      case None => (Applied(st.(nameservers := n.list), None), after)
  }

  /**
    After a successful WithNameservers that did not use the fixed fallback,
    every stored entry is in normal form, when the parsers are lawful.
   */
  lemma NameserversNormalForm(st: Settings, given: seq<string>, env: Env)
    requires Lawful(env.net)
    requires NameserverSource(given, env).Some?
    requires Nameservers(st, given, env).0.err.None?
    ensures var ns := Nameservers(st, given, env).0.settings.nameservers;
      forall i :: 0 <= i < |ns| ==> Normalize(env.net, ns[i]) == Ok(ns[i])
  {
    var list := NameserverSource(given, env).value;
    var ns := NormalizeList(env.net, list).list;
    NormalizeListSucceeds(env.net, list);
    forall i | 0 <= i < |ns| ensures Normalize(env.net, ns[i]) == Ok(ns[i]) {
      NormalizeIdempotent(env.net, list[i]);
    }
  }

  /** OverwriteOption: a missing option fails with "invalid option"; otherwise the option runs. */
  datatype ScanOption =
    | WithCacheDuration(duration: int)
    | WithConcurrentScans(quota: uint16)
    | WithDKIMSelectors(selectors: seq<string>)
    | WithDNSBuffer(bufferSize: uint16)
    | WithNameservers(nameservers: array<string>)

  // ---------------------------------------------------------------------------
  // The scanner fields and the option closures applied to them
  // ---------------------------------------------------------------------------

  class Scanner {
    var cacheDuration: int
    var poolSize: uint16
    var dkimSelectors: seq<string>
    var dnsBuffer: uint16
    var nameservers: seq<string>
    var warnings: seq<string>

    function Config(): Settings
      reads this
    {
      Settings(cacheDuration, poolSize, dkimSelectors, dnsBuffer, nameservers, warnings)
    }

    constructor (initial: Settings)
      ensures Config() == initial
    {
      cacheDuration := initial.cacheDuration;
      poolSize := initial.poolSize;
      dkimSelectors := initial.dkimSelectors;
      dnsBuffer := initial.dnsBuffer;
      nameservers := initial.nameservers;
      warnings := initial.warnings;
    }

    method SetCacheDuration(duration: int)
      modifies this
      ensures Config() == old(Config()).(cacheDuration := duration)
    {
      cacheDuration := duration;
    }

    method SetConcurrentScans(quota: uint16, env: Env)
      modifies this
      ensures Config() == ConcurrentScans(old(Config()), quota, env.numCPU)
    {
      var q := quota;
      if q == 0 {
        q := (env.numCPU % 0x1_0000) as uint16;
      }
      poolSize := q;
    }

    method SetDKIMSelectors(selectors: seq<string>) returns (err: Option<string>)
      modifies this
      ensures Applied(Config(), err) == DKIMSelectors(old(Config()), selectors)
    {
      if |selectors| == 0 {
        return Some("no DKIM selectors provided");
      }
      var i := 0;
      while i < |selectors|
        invariant 0 <= i <= |selectors|
        invariant forall j :: 0 <= j < i ==> SelectorCheck(selectors[j]).None?
        invariant unchanged(this)
      {
        var e := ValidateDKIMSelector(selectors[i]);
        if e.Some? {
          assert FirstInvalid(selectors) == i;
          return Some("invalid DKIM selector: " + e.value.Message());
        }
        i := i + 1;
      }
      dkimSelectors := selectors;
      return None;
    }

    method SetDNSBuffer(bufferSize: uint16)
      modifies this
      ensures Config() == DNSBuffer(old(Config()), bufferSize)
    {
      if bufferSize as int > MaxDNSBuffer {
        warnings := warnings + [BufferWarning];
      }
      dnsBuffer := bufferSize;
    }

    /** The closure of WithNameservers: rewrites the caller's array in place. */
    method SetNameservers(given: array<string>, env: Env) returns (err: Option<string>)
      modifies this, given
      ensures var r := Nameservers(old(Config()), old(given[..]), env);
        Applied(Config(), err) == r.0 && given[..] == r.1
    {
      var list: array<string> := given;
      if given.Length == 0 {
        match env.resolvConf {
          case None =>
            nameservers := FallbackNameservers;
            return None;
          case Some(servers) =>
            list := new string[|servers|](i requires 0 <= i < |servers| => servers[i]);
            assert list[..] == servers;
        }
      }
      err := NormalizeInPlace(list, env.net);
      if err.None? {
        nameservers := list[..];
      }
    }

    /** OverwriteOption. */
    method OverwriteOption(option: Option<ScanOption>, env: Env) returns (err: Option<string>)
      modifies this, if option.Some? && option.value.WithNameservers? then {option.value.nameservers} else {}
      ensures option.None? ==> err == Some("invalid option") && Config() == old(Config())
      ensures option.Some? && option.value.WithCacheDuration? ==>
        err.None? && Config() == old(Config()).(cacheDuration := option.value.duration)
      ensures option.Some? && option.value.WithConcurrentScans? ==>
        err.None? && Config() == ConcurrentScans(old(Config()), option.value.quota, env.numCPU)
      ensures option.Some? && option.value.WithDKIMSelectors? ==>
        Applied(Config(), err) == DKIMSelectors(old(Config()), option.value.selectors)
      ensures option.Some? && option.value.WithDNSBuffer? ==>
        err.None? && Config() == DNSBuffer(old(Config()), option.value.bufferSize)
      ensures option.Some? && option.value.WithNameservers? ==>
        var r := Nameservers(old(Config()), old(option.value.nameservers[..]), env);
        Applied(Config(), err) == r.0 && option.value.nameservers[..] == r.1
    {
      match option {
        case None => return Some("invalid option");
        case Some(o) =>
          match o {
            case WithCacheDuration(d) => SetCacheDuration(d); return None;
            case WithConcurrentScans(q) => SetConcurrentScans(q, env); return None;
            case WithDKIMSelectors(s) => err := SetDKIMSelectors(s);
            case WithDNSBuffer(b) => SetDNSBuffer(b); return None;
            case WithNameservers(ns) => err := SetNameservers(ns, env);
          }
      }
    }
  }

}

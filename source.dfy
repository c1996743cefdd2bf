/**
  The domain sources of pkg/scanner/source.go: a zone file source and a
  newline-separated text source. Each hands out a channel of names on its
  first Read, and Close marks it closed.

  The zone file parser and the line scanner's reader are inputs: a zone source
  is given the records the parser yields, in order, and a text source the
  text it reads. The goroutine that sends the names is modelled by its
  effect: the channel Read makes holds every name the goroutine would send.
 */
module Sources {
  import opened Wrappers
  import opened Strings
  import opened Dns

  /** The header of one parsed zone record: its owner name and record type. */
  datatype ZoneRR = ZoneRR(name: string, rrtype: nat)

  /** strings.Trim(name, "."): all leading and trailing dots removed. */
  function TrimDots(s: string): (r: string)
    ensures |r| > 0 ==> r[0] != '.' && r[|r| - 1] != '.'
  {
    TrimSet(s, {'.'})
  }

  // ---------------------------------------------------------------------------
  // The zone file filter
  // ---------------------------------------------------------------------------

  /** A name the zone source may send: it has a dot, and neither starts nor ends with one. */
  predicate ZoneDomain(name: string) {
    '.' in name && name[0] != '.' && name[|name| - 1] != '.'
  }

  /** The name one record contributes: none for an NS record or for a name without a dot. */
  function ZoneName(rr: ZoneRR): (r: Option<string>)
    ensures r.Some? <==> rr.rrtype != TypeNS && '.' in TrimDots(rr.name)
    ensures r.Some? ==> r.value == TrimDots(rr.name) && ZoneDomain(r.value)
  {
    if rr.rrtype == TypeNS then None
    else
      var name := TrimDots(rr.name);
      if IndexOf(name, '.') == -1 then None else Some(name)
  }

  /** The names the zone source sends, in record order. */
  function ZoneNames(rrs: seq<ZoneRR>): (names: seq<string>)
    ensures |names| <= |rrs|
    decreases |rrs|
  {
    if |rrs| == 0 then []
    else (if ZoneName(rrs[0]).Some? then [ZoneName(rrs[0]).value] else []) + ZoneNames(rrs[1..])
  }

  /** Every name sent has a dot and no dot at either end. */
  lemma {:induction false} ZoneNamesAreDomains(rrs: seq<ZoneRR>)
    ensures forall i :: 0 <= i < |ZoneNames(rrs)| ==> ZoneDomain(ZoneNames(rrs)[i])
    decreases |rrs|
  {
    if |rrs| > 0 {
      ZoneNamesAreDomains(rrs[1..]);
    }
  }

  /** The filter works record by record, keeping their order. */
  lemma {:induction false} ZoneNamesConcat(a: seq<ZoneRR>, b: seq<ZoneRR>)
    ensures ZoneNames(a + b) == ZoneNames(a) + ZoneNames(b)
    decreases |a|
  {
    if |a| == 0 {
      assert a + b == b;
    } else {
      var head := if ZoneName(a[0]).Some? then [ZoneName(a[0]).value] else [];
      assert (a + b)[0] == a[0];
      assert (a + b)[1..] == a[1..] + b;
      ZoneNamesConcat(a[1..], b);
      calc {
        ZoneNames(a + b);
        head + ZoneNames(a[1..] + b);
        head + (ZoneNames(a[1..]) + ZoneNames(b));
        (head + ZoneNames(a[1..])) + ZoneNames(b);
      }
    }
  }

  /** The names of one record. */
  lemma ZoneNamesSingle(rr: ZoneRR)
    ensures ZoneNames([rr]) == if ZoneName(rr).Some? then [ZoneName(rr).value] else []
  {
    assert [rr][1..] == [];
  }

  /** An NS record, wherever it is, contributes no name. */
  lemma SkipsNS(a: seq<ZoneRR>, rr: ZoneRR, b: seq<ZoneRR>)
    requires rr.rrtype == TypeNS
    ensures ZoneNames(a + [rr] + b) == ZoneNames(a + b)
  {
    ZoneNamesConcat(a + [rr], b);
    ZoneNamesConcat(a, [rr]);
    ZoneNamesSingle(rr);
    ZoneNamesConcat(a, b);
  }

  /** Every name sent is the dot-trimmed owner name of some record that is not NS. */
  lemma {:induction false} ZoneNamesFromRecords(rrs: seq<ZoneRR>, i: nat)
    requires i < |ZoneNames(rrs)|
    ensures exists j :: 0 <= j < |rrs| && rrs[j].rrtype != TypeNS && ZoneNames(rrs)[i] == TrimDots(rrs[j].name)
    decreases |rrs|
  {
    var head := if ZoneName(rrs[0]).Some? then [ZoneName(rrs[0]).value] else [];
    if i < |head| {
      assert ZoneNames(rrs)[i] == TrimDots(rrs[0].name);
    } else {
      ZoneNamesFromRecords(rrs[1..], i - |head|);
      var j :| 0 <= j < |rrs[1..]| && rrs[1..][j].rrtype != TypeNS && ZoneNames(rrs[1..])[i - |head|] == TrimDots(rrs[1..][j].name);
      assert rrs[j + 1] == rrs[1..][j];
    }
  }

  /**
    The loop of zonefileSource.read as it is evidently meant: one round per
    record, each record checked in turn. The code as written differs; see
    ReadZoneAsWritten.
   */
  method ReadZone(rrs: seq<ZoneRR>) returns (sent: seq<string>)
    ensures sent == ZoneNames(rrs)
  {
    sent := [];
    var i := 0;
    while i < |rrs|
      invariant 0 <= i <= |rrs|
      invariant sent == ZoneNames(rrs[..i])
    {
      ZoneNamesConcat(rrs[..i], [rrs[i]]);
      ZoneNamesSingle(rrs[i]);
      assert rrs[..i + 1] == rrs[..i] + [rrs[i]];
      if rrs[i].rrtype != TypeNS {
        var name := TrimDots(rrs[i].name);
        if IndexOf(name, '.') != -1 {
          sent := sent + [name];
        }
      }
      i := i + 1;
    }
    assert rrs[..i] == rrs;
  }

  /** A record repeated n times. */
  function Repeat(rr: ZoneRR, n: nat): (rs: seq<ZoneRR>)
    ensures |rs| == n && forall i :: 0 <= i < n ==> rs[i] == rr
  {
    seq(n, _ => rr)
  }

  /**
    The names zonefileSource.read sends as the code is written. Its loop is
    `for tok, ok := z.Next(); ok; _, ok = z.Next()`: the post statement drops
    each new token, so every round, one per record, tests the first record
    again.
   */
  function ZoneNamesAsWritten(rrs: seq<ZoneRR>): (names: seq<string>)
    ensures |names| <= |rrs|
  {
    if |rrs| == 0 then [] else ZoneNames(Repeat(rrs[0], |rrs|))
  }

  /** The filter over one record repeated: its name n times, or nothing. */
  lemma {:induction false} RepeatNames(rr: ZoneRR, n: nat)
    ensures ZoneNames(Repeat(rr, n)) == if ZoneName(rr).Some? then seq(n, _ => ZoneName(rr).value) else []
    decreases n
  {
    if n > 0 {
      assert Repeat(rr, n) == [rr] + Repeat(rr, n - 1);
      ZoneNamesConcat([rr], Repeat(rr, n - 1));
      ZoneNamesSingle(rr);
      RepeatNames(rr, n - 1);
    }
  }

  /**
    As written, the source sends the first record's trimmed name once per
    record, or nothing at all when the first record is NS or has no dot.
   */
  lemma AsWrittenRepeatsFirst(rrs: seq<ZoneRR>)
    ensures |rrs| == 0 || ZoneName(rrs[0]).None? ==> ZoneNamesAsWritten(rrs) == []
    ensures |rrs| > 0 && ZoneName(rrs[0]).Some? ==>
      |ZoneNamesAsWritten(rrs)| == |rrs| &&
      forall i :: 0 <= i < |rrs| ==> ZoneNamesAsWritten(rrs)[i] == TrimDots(rrs[0].name)
  {
    if |rrs| > 0 {
      RepeatNames(rrs[0], |rrs|);
    }
  }

  /** The code as written and the intended filter agree when every record is the first one. */
  lemma AsWrittenAgreesOnUniform(rrs: seq<ZoneRR>)
    requires forall i :: 0 <= i < |rrs| ==> rrs[i] == rrs[0]
    ensures ZoneNamesAsWritten(rrs) == ZoneNames(rrs)
  {
    if |rrs| > 0 {
      assert Repeat(rrs[0], |rrs|) == rrs;
    }
  }

  /** Two A records: the code as written sends the first name twice and never the second. */
  lemma AsWrittenRepeatsExample()
    ensures ZoneNamesAsWritten([ZoneRR("a.b.", TypeA), ZoneRR("c.d.", TypeA)]) == ["a.b", "a.b"]
    ensures ZoneNames([ZoneRR("a.b.", TypeA), ZoneRR("c.d.", TypeA)]) == ["a.b", "c.d"]
  {
    var r1, r2 := ZoneRR("a.b.", TypeA), ZoneRR("c.d.", TypeA);
    ZoneNameExample(r1);
    ZoneNameExample(r2);
    ZoneNamesPair(r1, r2);
    assert r1.name[..3] == "a.b" && r2.name[..3] == "c.d";
    assert ZoneNames([r1, r2]) == ["a.b"] + ["c.d"];
    AsWrittenRepeatsFirst([r1, r2]);
    var w := ZoneNamesAsWritten([r1, r2]);
    assert |w| == 2 && w[0] == "a.b" && w[1] == "a.b";
  }

  /** An NS record first: the code as written sends nothing, though later records have names. */
  lemma AsWrittenNSFirstExample()
    ensures ZoneNamesAsWritten([ZoneRR("a.b.", TypeNS), ZoneRR("c.d.", TypeA)]) == []
    ensures ZoneNames([ZoneRR("a.b.", TypeNS), ZoneRR("c.d.", TypeA)]) == ["c.d"]
  {
    var r1, r2 := ZoneRR("a.b.", TypeNS), ZoneRR("c.d.", TypeA);
    ZoneNameExample(r2);
    ZoneNamesPair(r1, r2);
    assert r2.name[..3] == "c.d";
    assert ZoneNames([r1, r2]) == [] + ["c.d"];
    AsWrittenRepeatsFirst([r1, r2]);
  }

  /** The names of two records. */
  lemma ZoneNamesPair(r1: ZoneRR, r2: ZoneRR)
    ensures ZoneNames([r1, r2]) ==
      (if ZoneName(r1).Some? then [ZoneName(r1).value] else []) + (if ZoneName(r2).Some? then [ZoneName(r2).value] else [])
  {
    assert [r1, r2] == [r1] + [r2];
    ZoneNamesConcat([r1], [r2]);
    ZoneNamesSingle(r1);
    ZoneNamesSingle(r2);
  }

  /** A record that is not NS, with a name of the form x.y., yields x.y. */
  lemma ZoneNameExample(rr: ZoneRR)
    requires rr.rrtype != TypeNS
    requires |rr.name| == 4 && rr.name[0] != '.' && rr.name[1] == '.' && rr.name[2] != '.' && rr.name[3] == '.'
    ensures ZoneName(rr) == Some(rr.name[..3])
  {
    var s := rr.name;
    assert TrimLeftSet(s, {'.'}) == s;
    assert TrimRightSet(s[..3], {'.'}) == s[..3];
    assert s[..3][1] == '.';
  }

  /** The loop of zonefileSource.read as written: tok stays the first record in every round. */
  method ReadZoneAsWritten(rrs: seq<ZoneRR>) returns (sent: seq<string>)
    ensures sent == ZoneNamesAsWritten(rrs)
  {
    sent := [];
    if |rrs| == 0 {
      return;
    }
    var tok := rrs[0];
    var i := 0;
    while i < |rrs|
      invariant 0 <= i <= |rrs|
      invariant sent == ZoneNames(Repeat(tok, i))
    {
      ZoneNamesConcat(Repeat(tok, i), [tok]);
      ZoneNamesSingle(tok);
      assert Repeat(tok, i + 1) == Repeat(tok, i) + [tok];
      if tok.rrtype != TypeNS {
        var name := TrimDots(tok.name);
        if IndexOf(name, '.') != -1 {
          sent := sent + [name];
        }
      }
      i := i + 1;
    }
  }

  // ---------------------------------------------------------------------------
  // The text filter
  // ---------------------------------------------------------------------------

  /** bufio.ScanLines drops one carriage return before the line end. */
  function DropCR(line: string): (r: string)
    ensures |line| > 0 && line[|line| - 1] == '\r' ==> r == line[..|line| - 1]
    ensures !(|line| > 0 && line[|line| - 1] == '\r') ==> r == line
  {
    if |line| > 0 && line[|line| - 1] == '\r' then line[..|line| - 1] else line
  }

  /**
    The lines bufio.Scanner yields for a text: split at each newline, with the
    empty piece after a final newline not counted as a line.
   */
  function ScanLines(text: string): (lines: seq<string>)
    ensures forall i :: 0 <= i < |lines| ==> '\n' !in lines[i]
  {
    SplitParts(text, '\n');
    var parts := Split(text, '\n');
    var ls := if parts[|parts| - 1] == "" then parts[..|parts| - 1] else parts;
    seq(|ls|, i requires 0 <= i < |ls| => DropCR(ls[i]))
  }

  /** One line per newline, plus one for a last line without a newline. */
  lemma LineCount(text: string)
    ensures |ScanLines(text)| == CountChar(text, '\n') + (if |text| > 0 && text[|text| - 1] != '\n' then 1 else 0)
  {
    SplitCount(text, '\n');
    SplitLast(text, '\n');
  }

  /** The names the text source sends: every line, dot-trimmed, none skipped. */
  function TextNames(lines: seq<string>): (names: seq<string>)
    ensures |names| == |lines|
    ensures forall i :: 0 <= i < |lines| ==> names[i] == TrimDots(lines[i])
  {
    seq(|lines|, i requires 0 <= i < |lines| => TrimDots(lines[i]))
  }

  /** The loop of textSource.read. */
  method ReadText(lines: seq<string>) returns (sent: seq<string>)
    ensures sent == TextNames(lines)
  {
    sent := [];
    var i := 0;
    while i < |lines|
      invariant 0 <= i <= |lines|
      invariant |sent| == i && forall j :: 0 <= j < i ==> sent[j] == TrimDots(lines[j])
    {
      sent := sent + [TrimDots(lines[i])];
      i := i + 1;
    }
  }

  // ---------------------------------------------------------------------------
  // The Read/Close lifecycle
  // ---------------------------------------------------------------------------

  /** A channel of names: what will be sent on it, and whether it was closed. */
  class Channel {
    const items: seq<string>
    var closed: bool

    constructor (items: seq<string>)
      ensures this.items == items && !closed
    {
      this.items := items;
      closed := false;
    }
  }

  class ZonefileSource {
    const records: seq<ZoneRR>
    var ch: Channel?
    var stopMade: bool
    var closed: bool

    constructor (records: seq<ZoneRR>)
      ensures this.records == records && ch == null && !stopMade && !closed
    {
      this.records := records;
      ch, stopMade, closed := null, false, false;
    }

    /**
      Read: nil once closed; the channel already made, if any; otherwise a new
      channel of the names read sends, as the code is written.
     */
    method Read() returns (c: Channel?)
      modifies this
      ensures old(closed) ==> c == null && ch == old(ch) && stopMade == old(stopMade)
      ensures !old(closed) && old(ch) != null ==> c == old(ch) && ch == old(ch) && stopMade == old(stopMade)
      ensures !old(closed) && old(ch) == null ==> c != null && fresh(c) && ch == c && stopMade && c.items == ZoneNamesAsWritten(records) && !c.closed
      ensures closed == old(closed)
    {
      if closed {
        return null;
      }
      if ch != null {
        return ch;
      }
      var names := ReadZoneAsWritten(records);
      ch := new Channel(names);
      if !stopMade {
        stopMade := true;
      }
      return ch;
    }

    /**
      Close: nothing once closed. Otherwise it closes the channel Read made,
      and that always ends in a panic: closing the nil channel of a source
      never read panics at once; after a Read the channel is unbuffered, so
      the drain is skipped, and the sending goroutine's deferred close, or
      its next send, meets a channel already closed. The source is then
      never marked closed.
     */
    method Close() returns (panicked: bool)
      modifies this, ch
      ensures old(closed) ==> !panicked && closed && ch == old(ch) && (ch != null ==> ch.closed == old(ch.closed))
      ensures !old(closed) && old(ch) == null ==> panicked && !closed && ch == null
      ensures !old(closed) && old(ch) != null ==> panicked && !closed && ch == old(ch) && ch.closed
      ensures stopMade == old(stopMade)
    {
      if closed {
        return false;
      }
      if ch == null {
        return true;
      }
      ch.closed := true;
      return true;
    }
  }

  class TextSource {
    const text: string
    var ch: Channel?
    var stopMade: bool
    var closed: bool

    constructor (text: string)
      ensures this.text == text && ch == null && !stopMade && !closed
    {
      this.text := text;
      ch, stopMade, closed := null, false, false;
    }

    /** Read: nil once closed; the channel already made, if any; otherwise a new channel of the trimmed lines. */
    method Read() returns (c: Channel?)
      modifies this
      ensures old(closed) ==> c == null && ch == old(ch) && stopMade == old(stopMade)
      ensures !old(closed) && old(ch) != null ==> c == old(ch) && ch == old(ch) && stopMade == old(stopMade)
      ensures !old(closed) && old(ch) == null ==> c != null && fresh(c) && ch == c && stopMade && c.items == TextNames(ScanLines(text)) && !c.closed
      ensures closed == old(closed)
    {
      if closed {
        return null;
      }
      if ch != null {
        return ch;
      }
      var names := ReadText(ScanLines(text));
      ch := new Channel(names);
      stopMade := true;
      return ch;
    }

    /**
      Close: nothing once closed. Otherwise it closes only the stop channel,
      and closing the nil stop channel of a source never read is a panic.
     */
    method Close() returns (panicked: bool)
      modifies this
      ensures old(closed) ==> !panicked && closed
      ensures !old(closed) ==> (panicked <==> !stopMade) && closed == !panicked
      ensures ch == old(ch) && stopMade == old(stopMade)
    {
      if closed {
        return false;
      }
      if !stopMade {
        return true;
      }
      closed := true;
      return false;
    }
  }

}

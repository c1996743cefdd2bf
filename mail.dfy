/**
  The text logic of the mail responder: `stringify`, the DKIM-Signature
  header loop of GetMail with its selector extraction, and the collection
  of senders by host. A message is given as its header lines, as a
  `bufio.Scanner` would yield them, its sequence number and its From list.
 */
module Mail {
  import opened Wrappers
  import opened Strings

  // ---------------------------------------------------------------------------
  // stringify
  // ---------------------------------------------------------------------------

  /** The number of empty strings at the front of `xs`. */
  function LeadingEmpty(xs: seq<string>): (k: nat)
    ensures k <= |xs|
    ensures forall i :: 0 <= i < k ==> xs[i] == ""
    ensures k < |xs| ==> xs[k] != ""
    decreases |xs|
  {
    if |xs| == 0 || xs[0] != "" then 0 else 1 + LeadingEmpty(xs[1..])
  }

  /** The lines joined by "\n", where the empty lines in front contribute nothing. */
  function Stringified(xs: seq<string>): string {
    Join(xs[LeadingEmpty(xs)..], "\n")
  }

  lemma {:induction false} JoinFirst(xs: seq<string>, sep: string)
    requires |xs| > 0
    ensures |Join(xs, sep)| >= |xs[0]|
    ensures Join(xs, sep)[..|xs[0]|] == xs[0]
  {
    if |xs| > 1 {
      assert Join(xs, sep) == xs[0] + (sep + Join(xs[1..], sep));
    }
  }

  lemma {:induction false} JoinSnoc(xs: seq<string>, x: string, sep: string)
    requires |xs| > 0
    ensures Join(xs + [x], sep) == Join(xs, sep) + sep + x
    decreases |xs|
  {
    var ys := xs + [x];
    if |xs| == 1 {
      assert ys[1..] == [x];
    } else {
      assert ys[1..] == xs[1..] + [x];
      JoinSnoc(xs[1..], x, sep);
    }
  }

  /** stringify: nothing but empty lines gives "". */
  lemma StringifiedEmpty(xs: seq<string>)
    ensures Stringified(xs) == "" <==> forall i :: 0 <= i < |xs| ==> xs[i] == ""
  {
    var k := LeadingEmpty(xs);
    if k < |xs| {
      JoinFirst(xs[k..], "\n");
    }
  }

  /** stringify: lines that are all non-empty are joined by "\n". */
  lemma StringifiedJoin(xs: seq<string>)
    requires forall i :: 0 <= i < |xs| ==> xs[i] != ""
    ensures Stringified(xs) == Join(xs, "\n")
  {
    assert xs[0..] == xs;
  }

  /** stringify of a single line is that line, empty or not. */
  lemma StringifiedSingle(x: string)
    ensures Stringified([x]) == x
  {
    if x != "" {
      assert [x][0..] == [x];
    }
  }

  /** stringify: the accumulating loop. */
  method Stringify(items: seq<string>) returns (result: string)
    ensures result == Stringified(items)
  {
    ghost var k := LeadingEmpty(items);
    result := "";
    var i := 0;
    while i < |items|
      invariant 0 <= i <= |items|
      invariant i <= k ==> result == ""
      invariant i > k ==> result == Join(items[k..i], "\n")
    {
      var s := items[i];
      if i > k {
        JoinFirst(items[k..i], "\n");
        JoinSnoc(items[k..i], s, "\n");
        assert items[k..i + 1] == items[k..i] + [s];
      } else if i == k {
        assert items[k..i + 1] == [s];
      }
      if |result| == 0 {
        result := s;
      } else {
        result := result + "\n" + s;
      }
      i := i + 1;
    }
    if k == |items| {
      assert items[k..] == [];
    } else {
      assert items[k..i] == items[k..];
    }
  }

  // ---------------------------------------------------------------------------
  // The DKIM-Signature header loop
  // ---------------------------------------------------------------------------

  const Signature: string := "DKIM-Signature"

  /** The cutset of strings.Trim(line, "DKIM-Signature:"): characters cut from both ends, not a prefix. */
  const SignatureCutset: set<char> := {'D', 'K', 'I', 'M', '-', 'S', 'i', 'g', 'n', 'a', 't', 'u', 'r', 'e', ':'}

  /**
    A folded header line: one that strings.TrimSpace changes, that is, one
    that starts or ends with a space (TrimSpaceChanges).
   */
  predicate Indented(line: string) {
    |line| > 0 && (IsSpace(line[0]) || IsSpace(line[|line| - 1]))
  }

  /** The loop variables dkimFound, dkimDone and dkim. */
  datatype HeaderState = HeaderState(found: bool, done: bool, dkim: string)

  const Start: HeaderState := HeaderState(false, false, "")

  /** One header line: first the collection of a folded continuation, then the search for a signature. */
  function Step(st: HeaderState, line: string): HeaderState {
    var st1 :=
      if !st.found then st
      else if Indented(line) then st.(dkim := st.dkim + line)
      else st.(done := true, found := false);
    if !st1.done && Contains(line, Signature) then st1.(found := true, dkim := st1.dkim + TrimSet(line, SignatureCutset))
    else st1
  }

  /** The header loop from state `st` over `lines`. */
  function ScanFrom(st: HeaderState, lines: seq<string>): HeaderState
    decreases |lines|
  {
    if |lines| == 0 then st else ScanFrom(Step(st, lines[0]), lines[1..])
  }

  /** The header loop of GetMail. */
  method ScanHeader(lines: seq<string>) returns (dkimFound: bool, dkimDone: bool, dkim: string)
    ensures HeaderState(dkimFound, dkimDone, dkim) == ScanFrom(Start, lines)
  {
    dkimFound, dkimDone, dkim := false, false, "";
    var i := 0;
    while i < |lines|
      invariant 0 <= i <= |lines|
      invariant ScanFrom(HeaderState(dkimFound, dkimDone, dkim), lines[i..]) == ScanFrom(Start, lines)
    {
      var line := lines[i];
      assert lines[i..][1..] == lines[i + 1..];
      TrimSpaceChanges(line);
      if dkimFound {
        if line != TrimSpace(line) {
          dkim := dkim + line;
        } else {
          dkimDone := true;
          dkimFound := false;
        }
      }
      if !dkimDone {
        if Contains(line, Signature) {
          dkimFound := true;
          dkim := dkim + TrimSet(line, SignatureCutset);
        }
      }
      i := i + 1;
    }
  }

  /** The index of the first line holding "DKIM-Signature", or the number of lines. */
  function FirstSignature(lines: seq<string>): (i: nat)
    ensures i <= |lines|
    ensures forall j :: 0 <= j < i ==> !Contains(lines[j], Signature)
    ensures i < |lines| ==> Contains(lines[i], Signature)
    decreases |lines|
  {
    if |lines| == 0 || Contains(lines[0], Signature) then 0 else 1 + FirstSignature(lines[1..])
  }

  /** The index of the first line that is not folded, or the number of lines. */
  function FirstUnfolded(lines: seq<string>): (j: nat)
    ensures j <= |lines|
    ensures forall k :: 0 <= k < j ==> Indented(lines[k])
    ensures j < |lines| ==> !Indented(lines[j])
    decreases |lines|
  {
    if |lines| == 0 || !Indented(lines[0]) then 0 else 1 + FirstUnfolded(lines[1..])
  }

  /** What a folded line adds: the line, and its trimmed form again when it holds "DKIM-Signature" itself. */
  function Piece(line: string): string {
    line + (if Contains(line, Signature) then TrimSet(line, SignatureCutset) else "")
  }

  /** What folded lines add, in order. */
  function Continuation(lines: seq<string>): string
    decreases |lines|
  {
    if |lines| == 0 then "" else Piece(lines[0]) + Continuation(lines[1..])
  }

  lemma FoldedStep(st: HeaderState, line: string)
    requires st.found && !st.done && Indented(line)
    ensures Step(st, line) == st.(dkim := st.dkim + Piece(line))
  {
  }

  lemma UnfoldedStep(st: HeaderState, line: string)
    requires st.found && !st.done && !Indented(line)
    ensures Step(st, line) == HeaderState(false, true, st.dkim)
  {
  }

  lemma AppendAssoc(a: string, b: string, c: string)
    ensures (a + b) + c == a + (b + c)
  {
  }

  /** Once collection is over, the remaining lines change nothing. */
  lemma {:induction false} DoneStays(st: HeaderState, lines: seq<string>)
    requires st.done && !st.found
    ensures ScanFrom(st, lines) == st
    decreases |lines|
  {
    if |lines| > 0 {
      DoneStays(Step(st, lines[0]), lines[1..]);
    }
  }

  /** Before the first signature line the state stays at its start. */
  lemma {:induction false} SkipToSignature(lines: seq<string>)
    ensures ScanFrom(Start, lines) == ScanFrom(Start, lines[FirstSignature(lines)..])
    decreases |lines|
  {
    if |lines| > 0 && !Contains(lines[0], Signature) {
      assert Step(Start, lines[0]) == Start;
      SkipToSignature(lines[1..]);
      assert lines[1..][FirstSignature(lines[1..])..] == lines[FirstSignature(lines)..];
    }
  }

  /** The loop over two stretches of lines is the loop over the second from where the first ends. */
  lemma {:induction false} ScanFromAppend(st: HeaderState, xs: seq<string>, ys: seq<string>)
    ensures ScanFrom(st, xs + ys) == ScanFrom(ScanFrom(st, xs), ys)
    decreases |xs|
  {
    if |xs| == 0 {
      assert xs + ys == ys;
    } else {
      assert (xs + ys)[1..] == xs[1..] + ys;
      ScanFromAppend(Step(st, xs[0]), xs[1..], ys);
    }
  }

  /** While collecting, folded lines are added in order. */
  lemma {:induction false} CollectFolded(st: HeaderState, block: seq<string>)
    requires st.found && !st.done
    requires forall k :: 0 <= k < |block| ==> Indented(block[k])
    ensures ScanFrom(st, block) == st.(dkim := st.dkim + Continuation(block))
    decreases |block|
  {
    if |block| > 0 {
      var piece := Piece(block[0]);
      var st1 := st.(dkim := st.dkim + piece);
      FoldedStep(st, block[0]);
      CollectFolded(st1, block[1..]);
      AppendAssoc(st.dkim, piece, Continuation(block[1..]));
    }
  }

  /** Folded lines and then an unfolded one: collection ends with the folded lines added. */
  lemma CollectEnds(st: HeaderState, block: seq<string>, rest: seq<string>)
    requires st.found && !st.done
    requires forall k :: 0 <= k < |block| ==> Indented(block[k])
    requires |rest| > 0 && !Indented(rest[0])
    ensures ScanFrom(st, block + rest) == HeaderState(false, true, st.dkim + Continuation(block))
  {
    ScanFromAppend(st, block, rest);
    CollectFolded(st, block);
    var st1 := st.(dkim := st.dkim + Continuation(block));
    UnfoldedStep(st1, rest[0]);
    DoneStays(HeaderState(false, true, st1.dkim), rest[1..]);
  }

  /**
    The header loop keeps only the first signature: its line trimmed by the
    cutset, then the folded lines after it. The loop ends collecting when
    the header ends while still folded; it is done once an unfolded line
    follows. No later signature is captured.
   */
  lemma HeaderSignature(lines: seq<string>)
    ensures FirstSignature(lines) == |lines| ==> ScanFrom(Start, lines) == Start
    ensures var i := FirstSignature(lines);
      i < |lines| ==>
        var rest := lines[i + 1..]; var j := FirstUnfolded(rest);
        ScanFrom(Start, lines) ==
          HeaderState(j == |rest|, j < |rest|, TrimSet(lines[i], SignatureCutset) + Continuation(rest[..j]))
  {
    var i := FirstSignature(lines);
    SkipToSignature(lines);
    if i < |lines| {
      assert lines[i..][0] == lines[i] && lines[i..][1..] == lines[i + 1..];
      FromSignature(lines[i..]);
    } else {
      assert lines[i..] == [];
    }
  }

  /** From a signature line on: collection of what follows it. */
  lemma FromSignature(lines: seq<string>)
    requires |lines| > 0 && Contains(lines[0], Signature)
    ensures var rest := lines[1..]; var j := FirstUnfolded(rest);
      ScanFrom(Start, lines) ==
        HeaderState(j == |rest|, j < |rest|, TrimSet(lines[0], SignatureCutset) + Continuation(rest[..j]))
  {
    var st := HeaderState(true, false, TrimSet(lines[0], SignatureCutset));
    assert Step(Start, lines[0]) == st;
    AfterSignature(st, lines[1..]);
  }

  /** Collection from state `st` over `rest`: the folded lines up to the first unfolded one. */
  lemma AfterSignature(st: HeaderState, rest: seq<string>)
    requires st.found && !st.done
    ensures var j := FirstUnfolded(rest);
      ScanFrom(st, rest) == HeaderState(j == |rest|, j < |rest|, st.dkim + Continuation(rest[..j]))
  {
    var j := FirstUnfolded(rest);
    if j == |rest| {
      CollectFolded(st, rest);
      assert rest[..j] == rest;
    } else {
      assert rest == rest[..j] + rest[j..];
      CollectEnds(st, rest[..j], rest[j..]);
    }
  }

  /** The collected text once collection is done: spaces removed and each ';' followed by one space. */
  function Normalized(st: HeaderState): string {
    if st.done then ReplaceChar(ReplaceChar(st.dkim, ' ', ""), ';', "; ") else st.dkim
  }

  /** Where the selector comes from: the index of the first ';'-segment that starts with " s=", if any. */
  function SelectorSegment(dkim: string): int {
    FirstPrefixed(Split(dkim, ';'), " s=")
  }

  /**
    The selector search: the text after " s=" in the first ';'-segment
    starting with it, or the whole text when no segment does (the empty
    text included).
   */
  method FindSelector(dkim: string) returns (selector: string)
    ensures SelectorSegment(dkim) >= 0 ==> selector == TrimPrefix(Split(dkim, ';')[SelectorSegment(dkim)], " s=")
    ensures SelectorSegment(dkim) < 0 ==> selector == dkim
  {
    selector := dkim;
    if dkim != "" {
      var dkimHeaders := Split(dkim, ';');
      var i := 0;
      while i < |dkimHeaders|
        invariant 0 <= i <= |dkimHeaders|
        invariant forall j :: 0 <= j < i ==> !HasPrefix(dkimHeaders[j], " s=")
      {
        if HasPrefix(dkimHeaders[i], " s=") {
          selector := TrimPrefix(dkimHeaders[i], " s=");
          return;
        }
        i := i + 1;
      }
    } else {
      assert Split(dkim, ';') == [""];
    }
  }

  /** The selector recorded for a message with this header. */
  function HeaderSelector(header: seq<string>): string {
    var dkim := Normalized(ScanFrom(Start, header));
    var k := SelectorSegment(dkim);
    if k >= 0 then TrimPrefix(Split(dkim, ';')[k], " s=") else dkim
  }

  /** After normalisation every ';' is followed by a space and no other space is left. */
  lemma {:induction false} NormalizedSpaces(s: string, i: int)
    requires 0 <= i < |ReplaceChar(ReplaceChar(s, ' ', ""), ';', "; ")|
    ensures var r := ReplaceChar(ReplaceChar(s, ' ', ""), ';', "; ");
      r[i] == ' ' ==> 0 < i && r[i - 1] == ';'
    ensures var r := ReplaceChar(ReplaceChar(s, ' ', ""), ';', "; ");
      r[i] == ';' ==> i + 1 < |r| && r[i + 1] == ' '
  {
    ReplaceSemicolons(ReplaceChar(s, ' ', ""), i);
  }

  lemma {:induction false} ReplaceSemicolons(t: string, i: int)
    requires ' ' !in t
    requires 0 <= i < |ReplaceChar(t, ';', "; ")|
    ensures var r := ReplaceChar(t, ';', "; ");
      (r[i] == ' ' ==> 0 < i && r[i - 1] == ';') && (r[i] == ';' ==> i + 1 < |r| && r[i + 1] == ' ')
    decreases |t|
  {
    var r := ReplaceChar(t, ';', "; ");
    var head := if t[0] == ';' then "; " else [t[0]];
    var tail := ReplaceChar(t[1..], ';', "; ");
    assert r == head + tail;
    if i >= |head| {
      ReplaceSemicolons(t[1..], i - |head|);
      assert r[i] == tail[i - |head|];
      if i - |head| > 0 {
        assert r[i - 1] == tail[i - |head| - 1];
      }
      if i - |head| + 1 < |tail| {
        assert r[i + 1] == tail[i - |head| + 1];
      }
    }
  }

  // ---------------------------------------------------------------------------
  // Senders by host
  // ---------------------------------------------------------------------------

  /** An envelope address: its host name and its Address() text. */
  datatype Address = Address(hostName: string, address: string)

  datatype Message = Message(seqNum: nat, header: seq<string>, from: seq<Address>)

  datatype FoundMail = FoundMail(address: string, dkimSelector: string)

  /** The message has a sender whose host is `host`. */
  predicate FromHost(m: Message, host: string) {
    |m.from| > 0 && m.from[0].hostName == host
  }

  /** The entry a message with a sender contributes, under the host of its first sender. */
  function Entry(m: Message): FoundMail
    requires |m.from| > 0
  {
    FoundMail(m.from[0].address, HeaderSelector(m.header))
  }

  /** The addresses map after the messages in turn: a message without a sender is skipped, a later host overwrites. */
  function Found(ms: seq<Message>): map<string, FoundMail>
    decreases |ms|
  {
    if |ms| == 0 then map[]
    else
      var m := ms[|ms| - 1];
      var before := Found(ms[..|ms| - 1]);
      if |m.from| == 0 then before else before[m.from[0].hostName := Entry(m)]
  }

  /** The sequence numbers marked for deletion: those of the messages with a sender. */
  function Deleted(ms: seq<Message>): seq<nat>
    decreases |ms|
  {
    if |ms| == 0 then []
    else
      var m := ms[|ms| - 1];
      Deleted(ms[..|ms| - 1]) + (if |m.from| == 0 then [] else [m.seqNum])
  }

  /** A host is a key exactly when some message with a sender has it as its first sender's host. */
  lemma {:induction false} FoundKeys(ms: seq<Message>, host: string)
    ensures host in Found(ms) <==> exists i :: 0 <= i < |ms| && FromHost(ms[i], host)
    decreases |ms|
  {
    if |ms| > 0 {
      var n := |ms| - 1;
      var before := ms[..n];
      FoundKeys(before, host);
      if host in Found(before) {
        var i :| 0 <= i < n && FromHost(before[i], host);
        assert ms[i] == before[i];
      }
      if exists i :: 0 <= i < |ms| && FromHost(ms[i], host) {
        var i :| 0 <= i < |ms| && FromHost(ms[i], host);
        if i < n {
          assert before[i] == ms[i];
        }
      }
    }
  }

  /** The entry of a host is that of the last message with a sender from that host. */
  lemma {:induction false} FoundLast(ms: seq<Message>, i: nat)
    requires i < |ms| && |ms[i].from| > 0
    requires forall k :: i < k < |ms| && |ms[k].from| > 0 ==> ms[k].from[0].hostName != ms[i].from[0].hostName
    ensures ms[i].from[0].hostName in Found(ms) && Found(ms)[ms[i].from[0].hostName] == Entry(ms[i])
    decreases |ms|
  {
    var n := |ms| - 1;
    if i < n {
      assert forall k :: i < k < n ==> ms[..n][k] == ms[k];
      FoundLast(ms[..n], i);
      assert ms[..n][i] == ms[i];
    }
  }

  /** The message loop of GetMail: the addresses map and the sequence numbers to delete. */
  method ReadMessages(messages: seq<Message>) returns (addresses: map<string, FoundMail>, toDelete: seq<nat>)
    ensures addresses == Found(messages)
    ensures toDelete == Deleted(messages)
  {
    addresses, toDelete := map[], [];
    var i := 0;
    while i < |messages|
      invariant 0 <= i <= |messages|
      invariant addresses == Found(messages[..i]) && toDelete == Deleted(messages[..i])
    {
      var msg := messages[i];
      assert messages[..i + 1][..i] == messages[..i];
      var dkimFound, dkimDone, dkim := ScanHeader(msg.header);
      if dkimDone {
        dkim := ReplaceChar(dkim, ' ', "");
        dkim := ReplaceChar(dkim, ';', "; ");
      }
      if |msg.from| > 0 {
        var selector := FindSelector(dkim);
        addresses := addresses[msg.from[0].hostName := FoundMail(msg.from[0].address, selector)];
        toDelete := toDelete + [msg.seqNum];
      }
      i := i + 1;
    }
    assert messages[..i] == messages;
  }

  /**
    GetMail on the fetched messages: an empty mailbox and a mailbox whose
    messages all lack a sender are errors; otherwise the addresses map.
   */
  method GetMail(messages: seq<Message>) returns (r: Result<map<string, FoundMail>, string>, toDelete: seq<nat>)
    ensures |messages| == 0 ==> r == Err("no new messages") && toDelete == []
    ensures |messages| > 0 ==> toDelete == Deleted(messages)
    ensures |messages| > 0 ==> r == if |Found(messages)| == 0 then Err("no valid messages") else Ok(Found(messages))
  {
    if |messages| == 0 {
      return Err("no new messages"), [];
    }
    var addresses;
    addresses, toDelete := ReadMessages(messages);
    if |addresses| == 0 {
      return Err("no valid messages"), toDelete;
    }
    return Ok(addresses), toDelete;
  }

  /** The mailbox yields an error exactly when no message has a sender. */
  lemma NoValidMessages(messages: seq<Message>)
    requires |messages| > 0
    ensures |Found(messages)| == 0 <==> forall i :: 0 <= i < |messages| ==> |messages[i].from| == 0
  {
    if exists i :: 0 <= i < |messages| && |messages[i].from| > 0 {
      var i :| 0 <= i < |messages| && |messages[i].from| > 0;
      FoundKeys(messages, messages[i].from[0].hostName);
    } else if |Found(messages)| > 0 {
      var host :| host in Found(messages);
      FoundKeys(messages, host);
    }
  }

}

/** What ContentWriter writes, ContentReader reads back: dap/content_stream.cpp against the
    "Base Protocol" part of the Debug Adapter Protocol. */
module Framing {
  import opened Basics
  import opened Text
  import opened Transport
  import opened ContentStream

  /** At most `k` bytes are held back, or the stream has ended. */
  predicate Lean(st: Stream, k: nat) {
    |st.buf| <= k || st.rest == ""
  }

  /** The header is nowhere inside the text. */
  predicate NoHeader(junk: string) {
    forall i :: 0 <= i <= |junk| ==> !StartsWith(junk[i..], HEADER)
  }

  // ---------- finding the header ----------

  lemma FilledStarts(st: Stream, pat: string)
    ensures StartsWith(st.Fill(|pat|).buf, pat) <==> StartsWith(st.All(), pat)
  {
    var f := st.Fill(|pat|);
    assert f.buf == f.All()[..|f.buf|];
    assert |f.buf| >= |pat| ==> f.buf[..|pat|] == st.All()[..|pat|];
  }

  lemma FilledLean(st: Stream, n: nat, k: nat)
    requires Lean(st, k) && k <= n
    ensures Lean(st.Fill(n), n)
  {
  }

  lemma MatchedWhole(st: Stream, pat: string, tail: string, k: nat)
    requires st.All() == pat + tail && Lean(st, k) && k <= |pat|
    ensures var r := Matched(st, pat);
            r.0 && r.1.All() == tail && r.1.later == st.later && Lean(r.1, 0)
  {
    hide Stream.Fill;
    FilledStarts(st, pat);
    FilledLean(st, |pat|, k);
    assert (pat + tail)[..|pat|] == pat && (pat + tail)[|pat|..] == tail;
  }

  lemma HeaderNotInside(junk: string, tail: string)
    requires junk != "" && NoHeader(junk)
    ensures !StartsWith(junk + HEADER + tail, HEADER)
  {
    var all := junk + HEADER + tail;
    assert junk[0..] == junk;
    if |junk| >= |HEADER| {
      assert all[..|HEADER|] == junk[..|HEADER|];
    } else {
      assert all[|junk|] == HEADER[0] != HEADER[|junk|];
      assert all[..|HEADER|][|junk|] == all[|junk|];
    }
  }

  /** Scanning drops any text in which the header does not occur. */
  lemma {:induction false} ScanFinds(st: Stream, junk: string, tail: string)
    requires st.All() == junk + HEADER + tail && NoHeader(junk) && Lean(st, |HEADER|)
    ensures var r := Scanned(st, HEADER);
            r.0 && r.1.All() == tail && r.1.later == st.later && Lean(r.1, 0)
    decreases |junk|
  {
    hide Stream.Fill, Stream.All;
    var f := st.Fill(|HEADER|);
    FilledStarts(st, HEADER);
    FilledLean(st, |HEADER|, |HEADER|);
    if junk == "" {
      assert junk + HEADER + tail == HEADER + tail;
      assert (HEADER + tail)[..|HEADER|] == HEADER && (HEADER + tail)[|HEADER|..] == tail;
    } else {
      HeaderNotInside(junk, tail);
      assert (junk + HEADER + tail)[1..] == junk[1..] + HEADER + tail;
      forall i | 0 <= i <= |junk[1..]| ensures !StartsWith(junk[1..][i..], HEADER) {
        assert junk[1..][i..] == junk[i + 1..];
      }
      ScanFinds(f.Pop(1), junk[1..], tail);
    }
  }

  // ---------- reading the length ----------

  predicate AllDigits(ds: string) {
    forall i :: 0 <= i < |ds| ==> ds[i] in DIGITS
  }

  function Value(ds: string, len: nat): nat
    requires AllDigits(ds)
  {
    if ds == "" then len else Value(ds[1..], Append(len, ds[0]))
  }

  lemma {:induction false} ValueSnoc(ds: string, d: char, len: nat)
    requires AllDigits(ds) && d in DIGITS
    ensures AllDigits(ds + [d]) && Value(ds + [d], len) == Append(Value(ds, len), d)
  {
    hide Append;
    if ds == "" {
      assert ds + [d] == [d] && [d][1..] == "";
    } else {
      assert (ds + [d])[1..] == ds[1..] + [d];
      ValueSnoc(ds[1..], d, Append(len, ds[0]));
    }
  }

  lemma {:induction false} DecimalWraps(n: nat)
    ensures AllDigits(Decimal(n)) && Decimal(n) != "" && Value(Decimal(n), 0) == n % TWO_64
  {
    if n < 10 {
      OneDigit(n);
    } else {
      hide Append, Value, AllDigits, Digit;
      DecimalWraps(n / 10);
      DigitIsDigit(n % 10);
      assert Decimal(n) == Decimal(n / 10) + [Digit(n % 10)];
      hide Decimal;
      ValueSnoc(Decimal(n / 10), Digit(n % 10), 0);
      AppendDigit(n);
    }
  }

  /** A decimal length is read modulo two to the 64, so as itself if it fits. */
  lemma DecimalValue(n: nat)
    ensures AllDigits(Decimal(n)) && Decimal(n) != "" && Value(Decimal(n), 0) == n % TWO_64
    ensures n < TWO_64 ==> Value(Decimal(n), 0) == n
  {
    hide Append, Value, AllDigits, Decimal;
    DecimalWraps(n);
  }

  lemma OneDigit(d: nat)
    requires d < 10
    ensures AllDigits([Digit(d)]) && Value([Digit(d)], 0) == d
  {
    DigitIsDigit(d);
    assert [Digit(d)][1..] == "";
  }

  lemma AppendDigit(n: nat)
    ensures Append(n / 10 % TWO_64, Digit(n % 10)) == n % TWO_64
  {
    DigitIsDigit(n % 10);
    var m := n / 10;
    var q := m / TWO_64;
    assert m == TWO_64 * q + m % TWO_64;
    assert n == TWO_64 * (10 * q) + (m % TWO_64 * 10 + n % 10);
    ModOf(m % TWO_64 * 10 + n % 10, 10 * q);
  }

  lemma ModOf(x: nat, q: nat)
    ensures (TWO_64 * q + x) % TWO_64 == x % TWO_64
    decreases q
  {
    if q > 0 {
      ModOf(x, q - 1);
      assert TWO_64 * q + x == TWO_64 + (TWO_64 * (q - 1) + x);
    }
  }

  lemma DigitIsDigit(d: nat)
    requires d < 10
    ensures Digit(d) in DIGITS && Digit(d) as int == '0' as int + d
  {
    assert DIGITS[d] == Digit(d);
  }

  lemma PeekOne(st: Stream, c: char, tail: string)
    requires st.All() == [c] + tail && Lean(st, 1)
    ensures var f := st.Fill(1);
            |f.buf| >= 1 && f.buf[0] == c && f.Pop(1).All() == tail && Lean(f, 1) && Lean(f.Pop(1), 0) &&
            f.later == st.later
  {
    assert ([c] + tail)[1..] == tail;
    assert st.Fill(1).All()[0] == c;
  }

  lemma {:induction false} NumberReads(st: Stream, ds: string, tail: string, len: nat)
    requires st.All() == ds + tail && AllDigits(ds) && Lean(st, 1)
    requires tail != "" && tail[0] !in DIGITS && tail[0] != '\0'
    ensures var r := Number(st, len); 
            r.0 == Value(ds, len) && r.1.All() == tail && r.1.later == st.later && Lean(r.1, 1)
    decreases |ds|
  {
    hide Append, Stream.Fill;
    if ds == "" {
      assert ds + tail == [tail[0]] + tail[1..];
      PeekOne(st, tail[0], tail[1..]);
    } else {
      assert ds + tail == [ds[0]] + (ds[1..] + tail);
      PeekOne(st, ds[0], ds[1..] + tail);
      NumberReads(st.Fill(1).Pop(1), ds[1..], tail, Append(len, ds[0]));
    }
  }

  predicate AllBlank(pad: string) {
    forall i :: 0 <= i < |pad| ==> pad[i] in " \t"
  }

  lemma {:induction false} SkipsBlanks(st: Stream, pad: string, tail: string)
    requires st.All() == pad + tail && AllBlank(pad) && Lean(st, 1)
    requires tail != "" && tail[0] !in " \t" && tail[0] != '\0'
    ensures Skipped(st).All() == tail && Skipped(st).later == st.later && Lean(Skipped(st), 1)
    decreases |pad|
  {
    hide Stream.Fill;
    if pad == "" {
      assert pad + tail == [tail[0]] + tail[1..];
      PeekOne(st, tail[0], tail[1..]);
    } else {
      assert pad + tail == [pad[0]] + (pad[1..] + tail);
      PeekOne(st, pad[0], pad[1..] + tail);
      SkipsBlanks(st.Fill(1).Pop(1), pad[1..], tail);
    }
  }

  // ---------- one message ----------

  lemma DigitIsNoBlank(c: char)
    requires c in DIGITS
    ensures c !in " \t" && c != '\0'
  {
  }

  lemma BreakEndsNumber(tail: string)
    ensures BREAK + tail != "" && (BREAK + tail)[0] !in DIGITS && (BREAK + tail)[0] != '\0'
  {
  }

  lemma Regroup(a: string, b: string, c: string, d: string, e: string, f: string, g: string)
    ensures a + (b + c + (d + e + (f + g))) == a + b + c + d + e + f + g
  {
    assert a + (b + c + (d + e + (f + g))) == a + b + c + d + e + f + g;
  }

  /** After the header: blanks, the length and the blank line lead to the message. */
  lemma AfterHeader(st: Stream, pad: string, ds: string, tail: string)
    requires AllBlank(pad) && AllDigits(ds) && ds != "" && Lean(st, 1)
    requires st.All() == pad + ds + BREAK + tail
    ensures var n := Number(Skipped(st), 0);
            n.0 == Value(ds, 0) && n.1.All() == BREAK + tail && n.1.later == st.later && Lean(n.1, 1)
  {
    hide Skipped, Number, Value, Stream.Fill, Stream.All;
    var after := BREAK + tail;
    assert pad + ds + BREAK + tail == pad + (ds + after);
    FrontOf(ds, after);
    DigitIsNoBlank(ds[0]);
    SkipsBlanks(st, pad, ds + after);
    BreakEndsNumber(tail);
    NumberReads(Skipped(st), ds, after, 0);
  }

  lemma FrontOf(a: string, b: string)
    requires AllDigits(a) && a != ""
    ensures a + b != "" && (a + b)[0] == a[0] && a[0] in DIGITS
  {
  }

  lemma BodyReads(mode: OnInvalidData, st: Stream, msg: string, tail: string)
    requires st.All() == BREAK + msg + tail && Lean(st, 1)
    ensures var r := ReadBody(mode, st, |msg|);
            r.0 == msg && r.1.All() == tail && r.1.later == st.later && Lean(r.1, 0)
  {
    hide Stream.Fill, Matched;
    assert BREAK + msg + tail == BREAK + (msg + tail);
    MatchedWhole(st, BREAK, msg + tail, 1);
    var b := Matched(st, BREAK).1;
    FilledLean(b, |msg|, 0);
    var f := b.Fill(|msg|);
    assert f.buf[..|msg|] == f.All()[..|msg|] == (msg + tail)[..|msg|] == msg;
    assert (msg + tail)[|msg|..] == tail;
  }

  predicate Reachable(mode: OnInvalidData, junk: string) {
    if mode == Close then junk == "" else NoHeader(junk)
  }

  lemma HeaderFound(mode: OnInvalidData, st: Stream, junk: string, tail: string)
    requires st.All() == junk + HEADER + tail && Reachable(mode, junk) && Lean(st, |HEADER|)
    ensures var h := FindHeader(mode, st);
            h.0 && h.1.All() == tail && h.1.later == st.later && Lean(h.1, 0)
  {
    if mode == Close {
      assert junk + HEADER + tail == HEADER + tail;
      MatchedWhole(st, HEADER, tail, |HEADER|);
    } else {
      ScanFinds(st, junk, tail);
    }
  }

  /** A message behind a header with any blanks and any numeral for its length. */
  function Announced(pad: string, ds: string, msg: string): string {
    HEADER + pad + ds + BREAK + msg
  }

  /** One announced message, whoever wrote the header: it is returned with nothing of what
      follows it taken from the transport; an empty message leaves its blank line behind. */
  lemma ReadsAnnounced(mode: OnInvalidData, st: Stream, junk: string, pad: string, ds: string, msg: string,
                       tail: string)
    requires AllBlank(pad) && AllDigits(ds) && ds != "" && Value(ds, 0) == |msg|
    requires Reachable(mode, junk) && Lean(st, |HEADER|) && st.All() == junk + Announced(pad, ds, msg) + tail
    ensures var r := ReadOne(mode, st);
            r.0 == msg && r.1.All() == (if msg == "" then BREAK else "") + tail &&
            r.1.later == st.later && Lean(r.1, if msg == "" then 1 else 0)
  {
    hide FindHeader, Skipped, Number, Value, ReadBody, Stream.Fill, Stream.All;
    var rest := pad + ds + BREAK + (msg + tail);
    assert junk + Announced(pad, ds, msg) + tail == junk + HEADER + rest;
    HeaderFound(mode, st, junk, rest);
    var h := FindHeader(mode, st).1;
    AfterHeader(h, pad, ds, msg + tail);
    assert BREAK + (msg + tail) == BREAK + msg + tail;
    if msg != "" {
      BodyReads(mode, Number(Skipped(h), 0).1, msg, tail);
      assert "" + tail == tail;
    } else {
      assert BREAK + "" + tail == BREAK + tail;
    }
  }

  /** One frame of the writer. */
  lemma ReadsFrame(mode: OnInvalidData, st: Stream, junk: string, msg: string, tail: string)
    requires |msg| < TWO_64 && Reachable(mode, junk) && Lean(st, |HEADER|)
    requires st.All() == junk + Frame(msg) + tail
    ensures var r := ReadOne(mode, st);
            r.0 == msg && r.1.All() == (if msg == "" then BREAK else "") + tail &&
            r.1.later == st.later && Lean(r.1, if msg == "" then 1 else 0)
  {
    hide ReadOne, Decimal, Value;
    DecimalValue(|msg|);
    assert Frame(msg) == Announced(" ", Decimal(|msg|), msg);
    ReadsAnnounced(mode, st, junk, " ", Decimal(|msg|), msg, tail);
  }

  /** A frame, written out. */
  lemma FrameWrittenOut()
    ensures Frame("{}") == "Content-Length: 2\r\n\r\n{}" && Decimal(120) == "120"
  {
    assert Decimal(12) == "12";
  }

  // ---------- only announced messages are read ----------

  /** With no end before the last byte, holding bytes back changes nothing. */
  lemma FillKeeps(st: Stream, n: nat)
    requires st.later == []
    ensures st.Fill(n).All() == st.All() && st.Fill(n).later == []
    ensures st.Fill(n).buf == st.All()[..|st.Fill(n).buf|]
  {
    assert st.Fill(n).buf + "" == st.Fill(n).buf;
  }

  lemma MatchIs(st: Stream, pat: string)
    requires st.later == [] && Matched(st, pat).0
    ensures st.All() == pat + Matched(st, pat).1.All() && Matched(st, pat).1.later == []
  {
    hide Stream.Fill, Stream.All;
    FillKeeps(st, |pat|);
    var f := st.Fill(|pat|);
    assert f.buf[..|pat|] == st.All()[..|pat|];
    assert st.All() == st.All()[..|pat|] + st.All()[|pat|..];
  }

  lemma {:induction false} ScanIs(st: Stream) returns (junk: string)
    requires st.later == [] && Scanned(st, HEADER).0
    ensures st.All() == junk + HEADER + Scanned(st, HEADER).1.All() && Scanned(st, HEADER).1.later == []
    decreases st.Total()
  {
    hide Stream.Fill, Stream.All;
    st.FillKeepsTotal(|HEADER|);
    FillKeeps(st, |HEADER|);
    var f, all := st.Fill(|HEADER|), st.All();
    if StartsWith(f.buf, HEADER) {
      junk := "";
      assert f.buf[..|HEADER|] == all[..|HEADER|];
      assert all == "" + all[..|HEADER|] + all[|HEADER|..];
    } else {
      var next := f.Pop(1);
      assert next.All() == all[1..];
      PopLess(f);
      var more := ScanIs(next);
      junk := [all[0]] + more;
      assert all == [all[0]] + all[1..];
      assert [all[0]] + (more + HEADER + Scanned(st, HEADER).1.All()) == junk + HEADER + Scanned(st, HEADER).1.All();
    }
  }

  /** strchr takes one terminator along. */
  predicate AtMostNul(s: string) {
    s == "" || s == "\0"
  }

  lemma TakenIs(st: Stream, chars: string)
    requires st.later == []
    ensures var r := AnyMatched(st, chars);
            r.1.later == [] &&
            if r.0 != '\0' then r.0 in chars && st.All() == [r.0] + r.1.All()
            else st.All() == r.1.All() || st.All() == "\0" + r.1.All()
  {
    hide Stream.Fill, Stream.All;
    FillKeeps(st, 1);
    var f, all := st.Fill(1), st.All();
    if f.buf != "" {
      assert f.buf[0] == all[0] && f.Pop(1).All() == all[1..];
      assert all == [all[0]] + all[1..];
    }
  }

  lemma {:induction false} SkipIs(st: Stream) returns (pad: string, nul: string)
    requires st.later == []
    ensures AllBlank(pad) && AtMostNul(nul) && st.All() == pad + nul + Skipped(st).All() && Skipped(st).later == []
    decreases st.Total()
  {
    hide AnyMatched, Stream.All;
    TakenIs(st, " \t");
    var r := AnyMatched(st, " \t");
    pad, nul := "", "";
    if r.0 == '\0' {
      nul := if st.All() == r.1.All() then "" else "\0";
      assert "" + nul + r.1.All() == nul + r.1.All() && "" + r.1.All() == r.1.All();
    } else {
      pad, nul := SkipIs(r.1);
      assert [r.0] + (pad + nul + Skipped(st).All()) == [r.0] + pad + nul + Skipped(st).All();
      pad := [r.0] + pad;
    }
  }

  lemma {:induction false} NumberIs(st: Stream, len: nat) returns (ds: string, nul: string)
    requires st.later == []
    ensures AllDigits(ds) && AtMostNul(nul) && st.All() == ds + nul + Number(st, len).1.All()
    ensures Number(st, len).0 == Value(ds, len) && Number(st, len).1.later == []
    decreases st.Total()
  {
    hide AnyMatched, Stream.All, Append;
    TakenIs(st, DIGITS);
    var r := AnyMatched(st, DIGITS);
    ds, nul := "", "";
    if r.0 == '\0' {
      nul := if st.All() == r.1.All() then "" else "\0";
      assert "" + nul + r.1.All() == nul + r.1.All() && "" + r.1.All() == r.1.All();
    } else {
      ds, nul := NumberIs(r.1, Append(len, r.0));
      var rest := Number(st, len).1.All();
      assert [r.0] + (ds + nul + rest) == [r.0] + ds + nul + rest;
      assert ([r.0] + ds)[1..] == ds;
      ds := [r.0] + ds;
    }
  }

  lemma BodyIs(mode: OnInvalidData, st: Stream, len: nat)
    requires st.later == [] && len > 0 && ReadBody(mode, st, len).0 != ""
    ensures var r := ReadBody(mode, st, len); |r.0| == len && st.All() == BREAK + r.0 + r.1.All()
  {
    hide Matched, Stream.Fill, Stream.All;
    MatchIs(st, BREAK);
    var b := Matched(st, BREAK).1;
    FillKeeps(b, len);
    var f, all := b.Fill(len), b.All();
    assert f.buf[..len] == all[..len] && f.Pop(len).All() == all[len..];
    assert all == all[..len] + all[len..];
    assert BREAK + (all[..len] + all[len..]) == BREAK + all[..len] + all[len..];
  }

  /** Nothing else is ever returned: the bytes a read used up are some text it ignored, in
      close mode none, then the header, blanks, the length in decimal and the blank line, and
      the message has that length. One NUL may stand where blanks or digits end. */
  lemma OnlyAnnounced(mode: OnInvalidData, st: Stream)
    returns (junk: string, pad: string, nul: string, ds: string, end: string)
    requires st.later == [] && ReadOne(mode, st).0 != ""
    ensures AllBlank(pad) && AtMostNul(nul) && AllDigits(ds) && AtMostNul(end) && (mode == Close ==> junk == "")
    ensures Value(ds, 0) == |ReadOne(mode, st).0|
    ensures st.All() == junk + HEADER + pad + nul + ds + end + BREAK + ReadOne(mode, st).0 + ReadOne(mode, st).1.All()
  {
    hide Matched, Scanned, Skipped, Number, ReadBody, Value, Stream.All;
    var h := FindHeader(mode, st).1;
    junk := "";
    if mode == Close {
      MatchIs(st, HEADER);
      assert HEADER + h.All() == "" + HEADER + h.All();
    } else {
      junk := ScanIs(st);
    }
    pad, nul := SkipIs(h);
    ds, end := NumberIs(Skipped(h), 0);
    var n := Number(Skipped(h), 0);
    BodyIs(mode, n.1, n.0);
    var r := ReadBody(mode, n.1, n.0);
    assert ReadOne(mode, st) == r;
    hide ReadOne, FindHeader;
    Regroup(junk + HEADER, pad, nul, ds, end, BREAK + r.0, r.1.All());
    assert junk + HEADER + pad + nul + ds + end + (BREAK + r.0) == junk + HEADER + pad + nul + ds + end + BREAK + r.0;
  }

  // ---------- whole streams ----------

  /** Frames, each behind some text of its own. */
  datatype Sent = Sent(junk: string, msg: string)

  function Wire(sent: seq<Sent>): string {
    if sent == [] then "" else sent[0].junk + Frame(sent[0].msg) + Wire(sent[1..])
  }

  function Messages(sent: seq<Sent>): seq<string> {
    seq(|sent|, i requires 0 <= i < |sent| => sent[i].msg)
  }

  predicate Sendable(sent: seq<Sent>) {
    forall i :: 0 <= i < |sent| ==> |sent[i].msg| < TWO_64
  }

  function ReadMany(mode: OnInvalidData, st: Stream, n: nat): (seq<string>, Stream)
    decreases n
  {
    if n == 0 then ([], st)
    else
      var one := ReadOne(mode, st);
      var more := ReadMany(mode, one.1, n - 1);
      ([one.0] + more.0, more.1)
  }

  lemma BreakHasNoHeader(junk: string)
    requires NoHeader(junk)
    ensures NoHeader(BREAK + junk)
  {
    forall i | 0 <= i <= |BREAK + junk| ensures !StartsWith((BREAK + junk)[i..], HEADER) {
      if i < |BREAK| {
        assert (BREAK + junk)[i..][0] == BREAK[i];
      } else {
        assert (BREAK + junk)[i..] == junk[i - |BREAK|..];
      }
    }
  }

  /** Ignoring invalid data: every message comes back, in order, whatever the junk between
      the frames, empty messages included. `left` is what the last frame left behind. */
  lemma {:induction false} IgnoreReadsAll(st: Stream, left: string, sent: seq<Sent>)
    requires Sendable(sent) && Lean(st, |HEADER|) && (left == "" || left == BREAK)
    requires forall i :: 0 <= i < |sent| ==> NoHeader(sent[i].junk)
    requires st.All() == left + Wire(sent)
    ensures ReadMany(Ignore, st, |sent|).0 == Messages(sent)
    decreases |sent|
  {
    hide ReadOne, Frame, NoHeader, Stream.All;
    if sent != [] {
      var junk, msg, tail := left + sent[0].junk, sent[0].msg, Wire(sent[1..]);
      assert left + Wire(sent) == junk + Frame(msg) + tail;
      if left == BREAK {
        BreakHasNoHeader(sent[0].junk);
      } else {
        assert junk == sent[0].junk;
      }
      ReadsFrame(Ignore, st, junk, msg, tail);
      IgnoreReadsAll(ReadOne(Ignore, st).1, if msg == "" then BREAK else "", sent[1..]);
      assert Messages(sent) == [msg] + Messages(sent[1..]);
    }
  }

  /** Once a message is empty, so are all that follow it. */
  predicate Settled(msgs: seq<string>) {
    forall i, j :: 0 <= i < j < |msgs| && msgs[i] == "" ==> msgs[j] == ""
  }

  /** Closing on invalid data: when a header is due and something else comes, such as what an
      empty message leaves behind, the transport is closed and nothing is ever read again. */
  lemma {:induction false} StuckWhenClosing(st: Stream, n: nat)
    requires !StartsWith(st.All(), HEADER)
    ensures |ReadMany(Close, st, n).0| == n
    ensures forall i :: 0 <= i < n ==> ReadMany(Close, st, n).0[i] == ""
    decreases n
  {
    hide Stream.Fill;
    if n > 0 {
      var f := st.Fill(|HEADER|);
      if |HEADER| <= |st.All()| {
        assert f.buf == st.All()[..|f.buf|];
        assert f.buf[..|HEADER|] == st.All()[..|HEADER|];
      }
      assert ReadOne(Close, st) == ("", f.Shut());
      assert f.Shut().All() == f.buf;
      StuckWhenClosing(f.Shut(), n - 1);
    }
  }

  lemma BreakIsNoHeader(all: string, tail: string)
    requires all == BREAK + tail
    ensures !StartsWith(all, HEADER)
  {
    assert |all| >= |HEADER| ==> all[..|HEADER|][0] == BREAK[0];
  }

  /** Closing on invalid data: the messages all come back exactly when no message but those
      at the end is empty. */
  lemma {:induction false} CloseReadsAll(st: Stream, sent: seq<Sent>)
    requires Sendable(sent) && Lean(st, |HEADER|)
    requires forall i :: 0 <= i < |sent| ==> sent[i].junk == ""
    requires st.All() == Wire(sent)
    ensures ReadMany(Close, st, |sent|).0 == Messages(sent) <==> Settled(Messages(sent))
    decreases |sent|
  {
    hide ReadOne, Frame, Stream.All;
    if sent != [] {
      var msg, tail := sent[0].msg, Wire(sent[1..]);
      assert Wire(sent) == "" + Frame(msg) + tail;
      ReadsFrame(Close, st, "", msg, tail);
      var next := ReadOne(Close, st).1;
      var more := ReadMany(Close, next, |sent| - 1).0;
      var rest := Messages(sent[1..]);
      assert Messages(sent) == [msg] + rest;
      assert ReadMany(Close, st, |sent|).0 == [msg] + more;
      SameTail(msg, more, rest);
      if msg != "" {
        assert "" + tail == tail;
        CloseReadsAll(next, sent[1..]);
        assert Messages(sent)[1..] == rest;
        SettledTail(Messages(sent));
      } else {
        assert !StartsWith(next.All(), HEADER) by { BreakIsNoHeader(next.All(), tail); }
        StuckWhenClosing(next, |sent| - 1);
        assert more == rest <==> forall i :: 0 <= i < |rest| ==> rest[i] == "";
        assert Messages(sent)[1..] == rest;
        SettledAfterEmpty(Messages(sent));
      }
    }
  }

  lemma SameTail(x: string, a: seq<string>, b: seq<string>)
    ensures [x] + a == [x] + b <==> a == b
  {
    assert ([x] + a)[1..] == a && ([x] + b)[1..] == b;
  }

  lemma SettledTail(msgs: seq<string>)
    requires msgs != [] && msgs[0] != ""
    ensures Settled(msgs) <==> Settled(msgs[1..])
  {
    if Settled(msgs[1..]) {
      forall i, j | 0 <= i < j < |msgs| && msgs[i] == "" ensures msgs[j] == "" {
        assert msgs[1..][i - 1] == "" && msgs[1..][j - 1] == msgs[j];
      }
    }
  }

  lemma SettledAfterEmpty(msgs: seq<string>)
    requires msgs != [] && msgs[0] == ""
    ensures Settled(msgs) <==> forall i :: 0 <= i < |msgs[1..]| ==> msgs[1..][i] == ""
  {
    var rest := msgs[1..];
    if Settled(msgs) {
      forall i | 0 <= i < |rest| ensures rest[i] == "" {
        assert rest[i] == msgs[i + 1];
      }
    }
    if forall i :: 0 <= i < |rest| ==> rest[i] == "" {
      forall i, j | 0 <= i < j < |msgs| && msgs[i] == "" ensures msgs[j] == "" {
        assert rest[j - 1] == msgs[j];
      }
    }
  }

  /** Calling Read n times, in either mode and over any transport, gives what ReadMany says.
      While every read returns a message, no byte behind the last frame is asked for. */
  method Receive(reader: ContentReader, n: nat) returns (msgs: seq<string>)
    requires reader.Valid()
    modifies reader, reader.source
    ensures reader.Valid() && (msgs, reader.View()) == ReadMany(reader.mode, old(reader.View()), n)
    ensures "" !in msgs ==> reader.source.asked <= Max(old(reader.source.asked), reader.Origin())
  {
    hide ReadOne;
    ghost var start := reader.View();
    ghost var all := ReadMany(reader.mode, start, n);
    msgs := [];
    assert all.0 == [] + all.0;
    for i := 0 to n
      invariant reader.Valid()
      invariant all.0 == msgs + ReadMany(reader.mode, reader.View(), n - i).0
      invariant all.1 == ReadMany(reader.mode, reader.View(), n - i).1
      invariant "" !in msgs ==> reader.source.asked <= Max(old(reader.source.asked), reader.Origin())
    {
      var msg := reader.Read();
      assert msgs + ([msg] + ReadMany(reader.mode, reader.View(), n - i - 1).0) ==
             msgs + [msg] + ReadMany(reader.mode, reader.View(), n - i - 1).0;
      msgs := msgs + [msg];
    }
    assert msgs + [] == msgs;
  }
}

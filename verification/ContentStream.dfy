/** Framing of DAP messages: ContentReader and ContentWriter of dap/content_stream.cpp.
    A byte is a char; what a reader holds back is modelled exactly, so the results do not
    depend on how many bytes the transport hands over at a time. */
module ContentStream {
  import opened Basics
  import opened Text
  import opened Transport

  datatype OnInvalidData = Ignore | Close

  const HEADER := "Content-Length:"
  const BREAK := "\r\n\r\n"
  const DIGITS := "0123456789"
  const CHUNK: nat := 256

  // ---------- what the reader does, as a function of what it holds and what is to come ----------

  /** The bytes held back, those to come before a read returns nothing, and the stretches
      after that; see Transport. */
  datatype Stream = Stream(buf: string, rest: string, later: seq<string>) {

    /** What can be had without meeting an end. */
    function All(): (all: string)
      ensures |all| == |buf| + |rest|
    {
      buf + rest
    }

    /** What is left to read at all. */
    function Total(): nat {
      |All()| + Length(later)
    }

    /** buffer(n): when there is too little, everything up to the end is held back and the
        read that found the end has moved on to the next stretch. */
    function Fill(n: nat): (s: Stream)
      ensures n <= |All()| ==> s.All() == All() && s.later == later && |s.buf| == Max(|buf|, n)
      ensures n > |All()| ==> s.buf == All()
    {
      if n <= |All()| then
        var k := if n <= |buf| then 0 else n - |buf|;
        Stream(buf + rest[..k], rest[k..], later)
      else if HasBytes(later) then
        Stream(All(), later[0], later[1..])
      else
        Stream(All(), "", later)
    }

    lemma FillKeepsTotal(n: nat)
      ensures Fill(n).Total() == Total()
    {
      if n > |All()| && HasBytes(later) {
        assert Length(later) == |later[0]| + Length(later[1..]);
      }
    }

    function Pop(n: nat): (s: Stream)
      requires n <= |buf|
      ensures s.All() == All()[n..] && s.later == later && s.buf == buf[n..]
    {
      Stream(buf[n..], rest, later)
    }

    function Shut(): Stream {
      Stream(buf, "", [])
    }
  }

  function Length(stretches: seq<string>): nat {
    if stretches == [] then 0 else |stretches[0]| + Length(stretches[1..])
  }

  lemma SameSplit(a: Stream, b: Stream)
    requires a.All() == b.All() && |a.buf| == |b.buf| && a.later == b.later
    ensures a == b
  {
    assert a.buf == a.All()[..|a.buf|] && b.buf == b.All()[..|b.buf|];
    assert a.rest == a.All()[|a.buf|..] && b.rest == b.All()[|b.buf|..];
  }

  lemma Moved(buf: string, chunk: string, rest: string)
    ensures buf + chunk + rest == buf + (chunk + rest)
  {
  }

  lemma EndOfStretch(st: Stream, here: Stream, n: nat)
    requires st.All() == here.All() && st.later == here.later && here.rest == "" && n > |here.buf|
    ensures st.Fill(n) == Stream(here.buf, if HasBytes(st.later) then st.later[0] else "",
                                 if HasBytes(st.later) then st.later[1..] else st.later)
  {
    assert here.All() == here.buf;
  }

  function Matched(st: Stream, pat: string): (bool, Stream) {
    var f := st.Fill(|pat|);
    if StartsWith(f.buf, pat) then (true, f.Pop(|pat|)) else (false, f)
  }

  function Scanned(st: Stream, pat: string): (bool, Stream)
    requires pat != ""
    decreases st.Total()
  {
    var f := st.Fill(|pat|);
    st.FillKeepsTotal(|pat|);
    if |f.buf| < |pat| then (false, f)
    else if StartsWith(f.buf, pat) then (true, f.Pop(|pat|))
    else Scanned(f.Pop(1), pat)
  }

  /** Filling first makes no difference to scanning. */
  lemma ScanOn(st: Stream, pat: string)
    requires pat != ""
    ensures var f := st.Fill(|pat|);
            Scanned(st, pat) == if |f.buf| >= |pat| then Scanned(f, pat) else (false, f)
  {
    hide Stream.Fill;
    var f := st.Fill(|pat|);
    if |f.buf| >= |pat| {
      SameSplit(f, f.Fill(|pat|));
    }
  }

  lemma PopLess(st: Stream)
    requires st.buf != ""
    ensures st.Pop(1).Total() == st.Total() - 1
  {
  }

  /** strchr also finds the terminator of its string: a NUL byte is taken from the stream,
      but reported like a byte that did not match. */
  function AnyMatched(st: Stream, chars: string): (r: (char, Stream))
    ensures r.0 != '\0' ==> r.1.Total() < st.Total()
  {
    var f := st.Fill(1);
    st.FillKeepsTotal(1);
    if f.buf == "" then ('\0', f)
    else if f.buf[0] in chars then (f.buf[0], f.Pop(1))
    else if f.buf[0] == '\0' then ('\0', f.Pop(1))
    else ('\0', f)
  }

  function Skipped(st: Stream): Stream
    decreases st.Total()
  {
    var r := AnyMatched(st, " \t");
    if r.0 == '\0' then r.1 else Skipped(r.1)
  }

  /** One more digit of a size_t. */
  function Append(len: nat, c: char): nat
    requires '0' <= c
  {
    (len * 10 + (c as int - '0' as int)) % TWO_64
  }

  function Number(st: Stream, len: nat): (nat, Stream)
    decreases st.Total()
  {
    var r := AnyMatched(st, DIGITS);
    if r.0 == '\0' then (len, r.1) else Number(r.1, Append(len, r.0))
  }

  function BadHeader(mode: OnInvalidData, st: Stream): (string, Stream) {
    ("", if mode == Close then st.Shut() else st)
  }

  function FindHeader(mode: OnInvalidData, st: Stream): (bool, Stream) {
    if mode == Close then Matched(st, HEADER) else Scanned(st, HEADER)
  }

  /** ContentReader::read */
  function ReadOne(mode: OnInvalidData, st: Stream): (string, Stream) {
    var h := FindHeader(mode, st);
    if !h.0 then
      BadHeader(mode, h.1)
    else
      var n := Number(Skipped(h.1), 0);
      if n.0 == 0 then
        ("", n.1)
      else
        ReadBody(mode, n.1, n.0)
  }

  function ReadBody(mode: OnInvalidData, st: Stream, len: nat): (string, Stream) {
    var b := Matched(st, BREAK);
    if !b.0 then
      BadHeader(mode, b.1)
    else
      var f := b.1.Fill(len);
      if |f.buf| < len then ("", f) else (f.buf[..len], f.Pop(len))
  }

  // ---------- the reader ----------

  class ContentReader {
    const source: Transport
    const mode: OnInvalidData
    var buf: string

    ghost predicate Valid()
      reads this, source
    {
      source.Valid() && |buf| <= |source.taken|
    }

    ghost function View(): Stream
      reads this, source
      requires Valid()
    {
      Stream(buf, source.Rest(), source.Later())
    }

    /** Where in the stream the next unconsumed byte stands. */
    ghost function Origin(): nat
      reads this, source
      requires Valid()
    {
      |source.taken| - |buf|
    }

    /** Nothing has been asked for that lies more than `slack` bytes beyond the origin,
        unless it had been asked for before. */
    twostate predicate Asked(slack: nat)
      reads this, source
      requires Valid()
    {
      source.asked <= Max(old(source.asked), Origin() + slack)
    }

    constructor (source: Transport, mode: OnInvalidData)
      requires source.Valid()
      ensures Valid() && this.source == source && this.mode == mode
      ensures View() == Stream("", source.Rest(), source.Later())
    {
      this.source, this.mode, buf := source, mode, "";
    }

    method Buffer(bytes: nat) returns (ok: bool)
      requires Valid()
      modifies this, source
      ensures Valid() && View() == old(View()).Fill(bytes)
      ensures ok <==> |buf| >= bytes
      ensures Origin() == old(Origin()) && Asked(bytes)
    {
      hide Stream.Fill, Transport.Rest, Transport.Later, HasBytes;
      ghost var start := View();
      if bytes < |buf| {
        SameSplit(start, start.Fill(bytes));
        return true;
      }
      var missing: nat := bytes - |buf|;
      while missing > 0
        invariant Valid() && Origin() == old(Origin()) && Asked(bytes)
        invariant View().All() == start.All() && View().later == start.later
        invariant |buf| + missing == Max(|start.buf|, bytes)
      {
        ghost var before := View();
        var chunk := source.Read(Min(CHUNK, missing));
        if chunk == "" {
          EndOfStretch(start, before, bytes);
          return false;
        }
        Moved(buf, chunk, source.Rest());
        buf := buf + chunk;
        missing := missing - |chunk|;
      }
      SameSplit(View(), start.Fill(bytes));
      return true;
    }

    method Match(pat: string) returns (ok: bool)
      requires Valid()
      modifies this, source
      ensures Valid() && (ok, View()) == Matched(old(View()), pat)
      ensures Origin() == old(Origin()) + if ok then |pat| else 0
      ensures Asked(if ok then 0 else |pat|)
    {
      var enough := Buffer(|pat|);
      if !enough {
        return false;
      }
      var i := 0;
      while i < |pat|
        invariant i <= |pat| && buf[..i] == pat[..i]
      {
        if buf[i] != pat[i] {
          return false;
        }
        i := i + 1;
      }
      buf := buf[|pat|..];
      return true;
    }

    method Scan(pat: string) returns (ok: bool)
      requires Valid() && pat != ""
      modifies this, source
      ensures Valid() && (ok, View()) == Scanned(old(View()), pat)
      ensures Origin() >= old(Origin())
      ensures Asked(if ok then 0 else |pat|)
    {
      hide Stream.Fill, Stream.Total, StartsWith, Transport.Rest, Transport.Later;
      ghost var start := View();
      var enough := Buffer(|pat|);
      ScanOn(start, pat);
      while enough
        invariant Valid() && Asked(|pat|) && Origin() >= old(Origin()) && enough == (|buf| >= |pat|)
        invariant Scanned(start, pat) == if enough then Scanned(View(), pat) else (false, View())
        decreases View().Total()
      {
        ghost var here := View();
        SameSplit(here, here.Fill(|pat|));
        var found := Match(pat);
        if found {
          return true;
        }
        buf := buf[1..];
        assert View() == here.Pop(1);
        PopLess(here);
        here.Pop(1).FillKeepsTotal(|pat|);
        enough := Buffer(|pat|);
        ScanOn(here.Pop(1), pat);
      }
      return false;
    }

    method MatchAny(chars: string) returns (c: char)
      requires Valid()
      modifies this, source
      ensures Valid() && (c, View()) == AnyMatched(old(View()), chars)
      ensures c == '\0' || c in chars
      ensures Origin() >= old(Origin()) + if c == '\0' then 0 else 1
      ensures Asked(if c == '\0' then 1 else 0)
    {
      var any := Buffer(1);
      if !any {
        return '\0';
      }
      c := buf[0];
      if c in chars || c == '\0' {
        buf := buf[1..];
        return c;
      }
      return '\0';
    }

    method Bad() returns (msg: string)
      requires Valid()
      modifies source`closed
      ensures Valid() && (msg, View()) == BadHeader(mode, old(View()))
    {
      if mode == Close {
        source.Close();
      }
      msg := "";
    }

    method SkipBlanks()
      requires Valid()
      modifies this, source
      ensures Valid() && View() == Skipped(old(View()))
      ensures Origin() >= old(Origin()) && Asked(1)
    {
      ghost var start := View();
      var c := MatchAny(" \t");
      while c != '\0'
        invariant Valid() && Skipped(start) == (if c == '\0' then View() else Skipped(View()))
        invariant Origin() >= old(Origin()) && Asked(1)
        decreases if c == '\0' then 0 else 1, View().Total()
      {
        c := MatchAny(" \t");
      }
    }

    method ReadLength() returns (len: nat)
      requires Valid()
      modifies this, source
      ensures Valid() && (len, View()) == Number(old(View()), 0)
      ensures Origin() >= old(Origin()) && Asked(1)
    {
      hide AnyMatched, Append, Stream.All;
      ghost var start := View();
      len := 0;
      while true
        invariant Valid() && Number(View(), len) == Number(start, 0)
        invariant Origin() >= old(Origin()) && Asked(1)
        decreases View().Total()
      {
        var c := MatchAny(DIGITS);
        if c == '\0' {
          break;
        }
        len := Append(len, c);
      }
    }

    method ReadContent(len: nat) returns (msg: string)
      requires Valid() && len > 0
      modifies this, source
      ensures Valid() && (msg, View()) == ReadBody(mode, old(View()), len)
      ensures Origin() >= old(Origin())
      ensures msg != "" ==> Origin() > old(Origin()) && Asked(0)
    {
      var broke := Match(BREAK);
      if !broke {
        msg := Bad();
        return;
      }
      var enough := Buffer(len);
      if !enough {
        return "";
      }
      msg := buf[..len];
      buf := buf[len..];
    }

    /** One message, or nothing. The outcome and what is held back are a function of the
        bytes alone; a message is returned without asking for any byte behind it. */
    method Read() returns (msg: string)
      requires Valid()
      modifies this, source
      ensures Valid() && (msg, View()) == ReadOne(mode, old(View()))
      ensures Origin() >= old(Origin()) && (msg != "" ==> Asked(0))
    {
      hide Matched, Scanned, Skipped, Number, ReadBody;
      var found;
      if mode == Close {
        found := Match(HEADER);
      } else {
        found := Scan(HEADER);
      }
      if !found {
        msg := Bad();
        return;
      }
      SkipBlanks();
      var len := ReadLength();
      if len == 0 {
        return "";
      }
      msg := ReadContent(len);
    }
  }

  // ---------- the writer ----------

  function Head(msg: string): string {
    HEADER + " " + Decimal(|msg|) + BREAK
  }

  function Frame(msg: string): string {
    Head(msg) + msg
  }

  class ContentWriter {
    const writer: Transport

    constructor (writer: Transport)
      ensures this.writer == writer
    {
      this.writer := writer;
    }

    /** One frame, as two pieces; for an empty message the second piece is empty. */
    method Write(msg: string) returns (ok: bool)
      requires writer.Valid()
      modifies writer`str, writer`chunks, writer`written
      ensures writer.Valid() && ok == !writer.closed
      ensures writer.written == if ok then old(writer.written) + Frame(msg) else old(writer.written)
      ensures ok ==> writer.str == old(writer.str) + Frame(msg)
      ensures ok ==> writer.chunks == old(writer.chunks) + [|Head(msg)|, |msg|]
    {
      hide Head;
      ghost var written, str := writer.written, writer.str;
      Moved(written, Head(msg), msg);
      Moved(str, Head(msg), msg);
      ok := writer.Write(Head(msg));
      if ok {
        ok := writer.Write(msg);
      }
    }
  }
}

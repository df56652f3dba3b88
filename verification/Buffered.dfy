/** Framing through a StringBuffer (dap/string_buffer.h), whose reads stop at an empty piece as
    if the stream had ended there; an empty message is written with such a piece. */
module Buffered {
  import opened Basics
  import opened Text
  import opened Transport
  import opened ContentStream
  import opened Framing

  // ---------- what the writer leaves in the buffer ----------

  function Bytes(msgs: seq<string>): string {
    if msgs == [] then "" else Frame(msgs[0]) + Bytes(msgs[1..])
  }

  function Pieces(msgs: seq<string>): seq<nat> {
    if msgs == [] then [] else [|Head(msgs[0])|, |msgs[0]|] + Pieces(msgs[1..])
  }

  /** A stretch of frames ends with each empty message. */
  function Stretched(msgs: seq<string>): (r: seq<string>)
    ensures r != []
  {
    if msgs == [] then [""]
    else
      var more := Stretched(msgs[1..]);
      if msgs[0] == "" then [Frame(msgs[0])] + more else [Frame(msgs[0]) + more[0]] + more[1..]
  }

  lemma {:induction false} Snoc(msgs: seq<string>, msg: string)
    ensures Bytes(msgs + [msg]) == Bytes(msgs) + Frame(msg)
    ensures Pieces(msgs + [msg]) == Pieces(msgs) + [|Head(msg)|, |msg|]
  {
    hide Frame, Head;
    if msgs == [] {
      assert [] + [msg] == [msg] && [msg][1..] == [];
    } else {
      assert (msgs + [msg])[1..] == msgs[1..] + [msg];
      Snoc(msgs[1..], msg);
      assert Frame(msgs[0]) + (Bytes(msgs[1..]) + Frame(msg)) == Frame(msgs[0]) + Bytes(msgs[1..]) + Frame(msg);
    }
  }

  lemma TwoPieces(a: nat, b: nat, rest: seq<nat>)
    ensures Sum([a, b] + rest) == a + b + Sum(rest)
    ensures ([a, b] + rest)[1..] == [b] + rest && ([b] + rest)[1..] == rest
  {
    assert ([a, b] + rest)[1..] == [b] + rest && ([b] + rest)[1..] == rest;
    assert Sum([b] + rest) == b + Sum(rest);
  }

  lemma HeadHasBytes(msg: string)
    ensures Head(msg) != ""
  {
  }

  lemma {:induction false} BufferHolds(msgs: seq<string>)
    ensures Sum(Pieces(msgs)) == |Bytes(msgs)|
    ensures Stretches(Bytes(msgs), Pieces(msgs)) == Stretched(msgs)
  {
    if msgs != [] {
      hide Head, Stretches, Sum, Bytes;
      BufferHolds(msgs[1..]);
      HeadHasBytes(msgs[0]);
      OneFrame(Head(msgs[0]), msgs[0], Bytes(msgs[1..]), Pieces(msgs[1..]));
      BytesStep(msgs);
    } else {
      assert Stretches(Bytes(msgs), Pieces(msgs)) == [""];
    }
  }

  lemma BytesStep(msgs: seq<string>)
    requires msgs != []
    ensures Bytes(msgs) == Head(msgs[0]) + (msgs[0] + Bytes(msgs[1..]))
  {
    hide Head;
    Moved(Head(msgs[0]), msgs[0], Bytes(msgs[1..]));
  }

  /** The stretches behind the two pieces of a frame. */
  lemma OneFrame(head: string, msg: string, bytes: string, rest: seq<nat>)
    requires head != "" && Sum(rest) == |bytes|
    ensures var pieces := [|head|, |msg|] + rest;
            var more := Stretches(bytes, rest);
            Sum(pieces) == |head + (msg + bytes)| &&
            Stretches(head + (msg + bytes), pieces) ==
            if msg == "" then [head + msg] + more else [head + msg + more[0]] + more[1..]
  {
    hide Stretches, Sum;
    var all := head + (msg + bytes);
    var pieces := [|head|, |msg|] + rest;
    TwoPieces(|head|, |msg|, rest);
    assert all[..|head|] == head && all[|head|..] == msg + bytes;
    FirstStretch(all, pieces);
    var more := Stretches(bytes, rest);
    if msg == "" {
      assert msg + bytes == bytes;
      EmptyPiece(bytes, [0] + rest);
      assert head + "" == head && ([""] + more)[1..] == more;
    } else {
      assert (msg + bytes)[..|msg|] == msg && (msg + bytes)[|msg|..] == bytes;
      FirstStretch(msg + bytes, [|msg|] + rest);
      assert head + (msg + more[0]) == head + msg + more[0];
    }
  }

  lemma EmptyPiece(str: string, chunks: seq<nat>)
    requires Sum(chunks) == |str| && chunks != [] && chunks[0] == 0
    ensures Stretches(str, chunks) == [""] + Stretches(str, chunks[1..])
  {
  }

  // ---------- what the reader gets out of it ----------

  /** The next n reads: an empty message that others follow costs a read of its own, or, in
      close mode, everything. */
  function Expected(mode: OnInvalidData, msgs: seq<string>, n: nat): (r: seq<string>)
    ensures |r| == n
    decreases |msgs|
  {
    if n == 0 then []
    else if msgs == [] || (msgs[0] == "" && (mode == Close || |msgs| == 1)) then Nothing(n)
    else if msgs[0] != "" then [msgs[0]] + Expected(mode, msgs[1..], n - 1)
    else if n == 1 then [""]
    else ["", ""] + Expected(mode, msgs[1..], n - 2)
  }

  function Nothing(n: nat): seq<string> {
    seq(n, i requires 0 <= i < n => "")
  }

  lemma NothingNext(n: nat)
    ensures [""] + Nothing(n) == Nothing(n + 1)
  {
  }

  /** Too few bytes for a header, and none behind them. */
  lemma {:induction false} Exhausted(mode: OnInvalidData, st: Stream, n: nat)
    requires |st.All()| < |HEADER| && !HasBytes(st.later)
    ensures ReadMany(mode, st, n).0 == Nothing(n)
    decreases n
  {
    if n > 0 {
      ShortRead(mode, st);
      Exhausted(mode, ReadOne(mode, st).1, n - 1);
      NothingNext(n - 1);
    }
  }

  /** A read that meets the end of a stretch before it has a header returns nothing. */
  lemma ShortRead(mode: OnInvalidData, st: Stream)
    requires |st.All()| < |HEADER|
    ensures ReadOne(mode, st).0 == ""
    ensures mode == Ignore ==> ReadOne(mode, st).1 == st.Fill(|HEADER|)
    ensures mode == Close ==> ReadOne(mode, st).1 == st.Fill(|HEADER|).Shut()
    ensures st.Fill(|HEADER|).buf == st.All()
    ensures !HasBytes(st.later) ==>
              |ReadOne(mode, st).1.All()| < |HEADER| && !HasBytes(ReadOne(mode, st).1.later)
  {
  }

  /** The reader stands before the stretches of the messages, with `left` in front. */
  predicate Before(st: Stream, left: string, msgs: seq<string>) {
    && Lean(st, |HEADER|)
    && st.All() == left + Stretched(msgs)[0] && st.later == Stretched(msgs)[1..]
  }

  predicate Short(msgs: seq<string>) {
    forall i :: 0 <= i < |msgs| ==> |msgs[i]| < TWO_64
  }

  lemma {:induction false} ReadsExpected(mode: OnInvalidData, st: Stream, left: string, msgs: seq<string>, n: nat)
    requires Before(st, left, msgs) && Short(msgs)
    requires left == "" || (mode == Ignore && left == BREAK)
    ensures ReadMany(mode, st, n).0 == Expected(mode, msgs, n)
    decreases |msgs|
  {
    hide ReadOne, Frame, NoHeader, Stream.All, Stream.Fill;
    if n > 0 {
      if msgs == [] {
        ShortLeft(left);
        Exhausted(mode, st, n);
      } else if msgs[0] != "" {
        ReadsMessage(mode, st, left, msgs);
        ReadsExpected(mode, ReadOne(mode, st).1, "", msgs[1..], n - 1);
      } else {
        ReadsEmpty(mode, st, left, msgs);
        var next := ReadOne(mode, st).1;
        ShortLeft(BREAK);
        if mode == Close {
          Closes(next, n - 1);
          NothingNext(n - 1);
        } else if |msgs| == 1 {
          assert !HasBytes([""]);
          Exhausted(mode, next, n - 1);
          NothingNext(n - 1);
        } else if n > 1 {
          SecondRead(next, msgs[1..]);
          var after := ReadOne(Ignore, next).1;
          ReadsExpected(mode, after, BREAK, msgs[1..], n - 2);
          var more := ReadMany(mode, after, n - 2).0;
          assert [""] + ([""] + more) == ["", ""] + more;
        }
      }
    }
  }

  lemma ShortLeft(left: string)
    requires left == "" || left == BREAK
    ensures |left| < |HEADER| && |left + ""| < |HEADER| && NoHeader(left)
  {
    BreakHasNoHeader("");
    assert BREAK + "" == BREAK;
  }

  lemma ReadsMessage(mode: OnInvalidData, st: Stream, left: string, msgs: seq<string>)
    requires Before(st, left, msgs) && Short(msgs) && msgs != [] && msgs[0] != ""
    requires left == "" || (mode == Ignore && left == BREAK)
    ensures ReadOne(mode, st).0 == msgs[0] && Before(ReadOne(mode, st).1, "", msgs[1..])
  {
    hide ReadOne, Frame, Stream.All;
    var tail := Stretched(msgs[1..])[0];
    ShortLeft(left);
    assert left + (Frame(msgs[0]) + tail) == left + Frame(msgs[0]) + tail;
    ReadsFrame(mode, st, left, msgs[0], tail);
  }

  lemma ReadsEmpty(mode: OnInvalidData, st: Stream, left: string, msgs: seq<string>)
    requires Before(st, left, msgs) && msgs != [] && msgs[0] == ""
    requires left == "" || (mode == Ignore && left == BREAK)
    ensures var r := ReadOne(mode, st);
            r.0 == "" && r.1.All() == BREAK && r.1.later == Stretched(msgs[1..]) && Lean(r.1, 1)
  {
    hide ReadOne, Frame, Stream.All;
    ShortLeft(left);
    assert left + Frame("") == left + Frame("") + "";
    ReadsFrame(mode, st, left, "", "");
    assert BREAK + "" == BREAK;
  }

  lemma Closes(st: Stream, n: nat)
    requires st.All() == BREAK
    ensures ReadMany(Close, st, n).0 == Nothing(n)
  {
    assert BREAK + "" == BREAK;
    BreakIsNoHeader(BREAK, "");
    StuckWhenClosing(st, n);
  }

  /** The blank line of an empty message is no header, and its stretch ends behind it. */
  lemma SecondRead(st: Stream, msgs: seq<string>)
    requires st.All() == BREAK && st.later == Stretched(msgs) && msgs != []
    ensures ReadOne(Ignore, st).0 == "" && Before(ReadOne(Ignore, st).1, BREAK, msgs)
  {
    hide ReadOne, Head;
    ShortRead(Ignore, st);
    HeadHasBytes(msgs[0]);
    assert Stretched(msgs)[0] != "";
  }

  // ---------- the theorem ----------

  lemma {:induction false} EmptyFirst(mode: OnInvalidData, msgs: seq<string>, n: nat, p: nat)
    requires p <= |msgs| && forall i :: 0 <= i < p ==> msgs[i] == ""
    ensures forall i :: 0 <= i < n && i < p ==> Expected(mode, msgs, n)[i] == ""
    decreases |msgs|
  {
    if n > 1 && p > 0 && mode == Ignore && |msgs| > 1 {
      EmptyFirst(mode, msgs[1..], n - 2, p - 1);
    }
  }

  lemma {:induction false} AllEmpty(mode: OnInvalidData, msgs: seq<string>, n: nat)
    requires forall i :: 0 <= i < |msgs| ==> msgs[i] == ""
    ensures Expected(mode, msgs, n) == Nothing(n)
    decreases |msgs|
  {
    if n > 1 && mode == Ignore && |msgs| > 1 {
      AllEmpty(mode, msgs[1..], n - 2);
    }
  }

  /** Reading as often as there are messages gives the messages exactly when no message but
      those at the end is empty. */
  lemma {:induction false} ExpectedIsSent(mode: OnInvalidData, msgs: seq<string>)
    ensures Expected(mode, msgs, |msgs|) == msgs <==> Settled(msgs)
  {
    if msgs != [] {
      var rest := msgs[1..];
      assert msgs == [msgs[0]] + rest;
      if msgs[0] != "" {
        ExpectedIsSent(mode, rest);
        SettledTail(msgs);
        SameTail(msgs[0], Expected(mode, rest, |rest|), rest);
      } else if Settled(msgs) {
        AllEmpty(mode, msgs, |msgs|);
      } else {
        var j := FirstMessage(msgs);
        FirstIsLate(mode, msgs, j);
      }
    }
  }

  lemma FirstMessage(msgs: seq<string>) returns (j: nat)
    requires msgs != [] && msgs[0] == "" && !Settled(msgs)
    ensures 0 < j < |msgs| && msgs[j] != "" && forall i :: 0 <= i < j ==> msgs[i] == ""
  {
    j := 1;
    while msgs[j] == ""
      invariant 0 < j < |msgs| && forall i :: 0 <= i < j ==> msgs[i] == ""
      decreases |msgs| - j
    {
      if j == |msgs| - 1 {
        assert Settled(msgs);
      }
      j := j + 1;
    }
  }

  /** The first message after empty ones comes one read later than it should, or never. */
  lemma FirstIsLate(mode: OnInvalidData, msgs: seq<string>, j: nat)
    requires 0 < j < |msgs| && forall i :: 0 <= i < j ==> msgs[i] == ""
    ensures Expected(mode, msgs, |msgs|)[j] == ""
  {
    if mode == Ignore {
      EmptyFirst(mode, msgs[1..], |msgs| - 2, j - 1);
    }
  }

  /** The smallest input on which it fails: the message behind an empty one. */
  lemma EmptyThenMessage(mode: OnInvalidData, msg: string)
    requires msg != ""
    ensures Expected(mode, ["", msg], 2) == ["", ""]
  {
    assert Expected(mode, ["", msg], 2) == ["", ""] + Expected(mode, ["", msg][1..], 0) || mode == Close;
    assert Nothing(2) == ["", ""];
  }

  /** In ignore mode one more read for every empty message that others follow makes up for
      it: nothing that was sent is lost. */
  function Needed(msgs: seq<string>): nat {
    if msgs == [] then 0 else Needed(msgs[1..]) + if msgs[0] == "" && |msgs| > 1 then 2 else 1
  }

  function NonEmpty(msgs: seq<string>): seq<string> {
    if msgs == [] then [] else (if msgs[0] == "" then [] else [msgs[0]]) + NonEmpty(msgs[1..])
  }

  lemma {:induction false} NothingIsLost(msgs: seq<string>)
    ensures NonEmpty(Expected(Ignore, msgs, Needed(msgs))) == NonEmpty(msgs)
  {
    if msgs != [] {
      var more := Expected(Ignore, msgs[1..], Needed(msgs[1..]));
      NothingIsLost(msgs[1..]);
      if msgs[0] != "" {
        assert ([msgs[0]] + more)[1..] == more;
      } else if |msgs| > 1 {
        assert (["", ""] + more)[1..] == [""] + more && ([""] + more)[1..] == more;
      } else {
        assert Nothing(1) == [""] && [""][1..] == [];
      }
    }
  }

  /** No more reads than messages are needed exactly when only the last message may be empty. */
  lemma {:induction false} NoExtraReads(msgs: seq<string>)
    ensures |msgs| <= Needed(msgs)
    ensures Needed(msgs) == |msgs| <==> forall i :: 0 <= i < |msgs| - 1 ==> msgs[i] != ""
  {
    if msgs != [] {
      var rest := msgs[1..];
      NoExtraReads(rest);
      assert forall i :: 0 <= i < |rest| - 1 ==> rest[i] == msgs[i + 1];
      if forall i :: 0 <= i < |rest| - 1 ==> rest[i] != "" {
        forall i | 0 < i < |msgs| - 1 ensures msgs[i] != "" {
          assert msgs[i] == rest[i - 1];
        }
      }
    }
  }

  /** Writing the messages into a StringBuffer of their own. */
  method Send(msgs: seq<string>) returns (buffer: Transport)
    ensures fresh(buffer) && buffer.Valid() && !buffer.closed && buffer.taken == ""
    ensures buffer.str == Bytes(msgs) && buffer.chunks == Pieces(msgs)
  {
    assert msgs[..0] == [] && Bytes([]) == "" && Pieces([]) == [];
    hide Frame, Head, Bytes, Pieces, Sum;
    buffer := new Transport.StringBuffer();
    var writer := new ContentWriter(buffer);
    for i := 0 to |msgs|
      invariant buffer.Valid() && !buffer.closed && buffer.taken == ""
      invariant buffer.str == Bytes(msgs[..i]) && buffer.chunks == Pieces(msgs[..i])
    {
      var ok := writer.Write(msgs[i]);
      Snoc(msgs[..i], msgs[i]);
      assert msgs[..i + 1] == msgs[..i] + [msgs[i]];
    }
    assert msgs[..|msgs|] == msgs;
  }

  /** ContentWriter, StringBuffer and ContentReader together: the reads give `Expected`, and
      so, in either mode, the messages exactly when no message but those at the end is empty. */
  method Transmit(mode: OnInvalidData, msgs: seq<string>, count: nat) returns (received: seq<string>)
    requires Short(msgs)
    ensures received == Expected(mode, msgs, count)
    ensures count == |msgs| ==> (received == msgs <==> Settled(msgs))
  {
    hide Frame, Head, Stretches, Stretched, Settled, Expected, Bytes, Pieces, Sum, Short, ReadMany;
    var buffer := Send(msgs);
    BufferHolds(msgs);
    var reader := new ContentReader(buffer, mode);
    assert Before(reader.View(), "", msgs);
    ReadsExpected(mode, reader.View(), "", msgs, count);
    received := Receive(reader, count);
    ExpectedIsSent(mode, msgs);
  }
}

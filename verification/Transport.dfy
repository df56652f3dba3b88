/** What a ContentReader reads from: any Reader of dap/io.h, and in particular the StringBuffer
    of dap/string_buffer.h, which keeps the pieces it was written in. */
module Transport {
  import opened Basics

  function Sum(lengths: seq<nat>): nat {
    if lengths == [] then 0 else lengths[0] + Sum(lengths[1..])
  }

  lemma {:induction false} SumSnoc(lengths: seq<nat>, n: nat)
    ensures Sum(lengths + [n]) == Sum(lengths) + n
  {
    if lengths == [] {
      assert [] + [n] == [n];
    } else {
      assert (lengths + [n])[1..] == lengths[1..] + [n];
      SumSnoc(lengths[1..], n);
    }
  }

  /** The bytes between two reads that return nothing: an empty piece ends a stretch, all
      other piece borders are invisible. */
  function Stretches(str: string, chunks: seq<nat>): (r: seq<string>)
    requires Sum(chunks) == |str|
    ensures r != []
    decreases |chunks|
  {
    if chunks == [] then
      [""]
    else if chunks[0] == 0 then
      [""] + Stretches(str, chunks[1..])
    else
      var more := Stretches(str[chunks[0]..], chunks[1..]);
      [str[..chunks[0]] + more[0]] + more[1..]
  }

  /** Bytes are still to come in one of the stretches. */
  predicate HasBytes(stretches: seq<string>) {
    exists i :: 0 <= i < |stretches| && stretches[i] != ""
  }

  /** Without bytes there are only empty stretches. */
  lemma {:induction false} StretchesHaveBytes(str: string, chunks: seq<nat>)
    requires Sum(chunks) == |str|
    ensures HasBytes(Stretches(str, chunks)) <==> str != ""
    decreases |chunks|
  {
    var r := Stretches(str, chunks);
    if chunks != [] && chunks[0] == 0 {
      var more := Stretches(str, chunks[1..]);
      StretchesHaveBytes(str, chunks[1..]);
      assert forall i :: 0 <= i < |more| ==> r[i + 1] == more[i];
    } else if chunks != [] {
      assert r[0] != "";
    }
  }

  lemma TakeStretch(str: string, chunks: seq<nat>, len: nat)
    requires Sum(chunks) == |str| && chunks != [] && 0 < len <= chunks[0]
    ensures var left := if len < chunks[0] then [chunks[0] - len] + chunks[1..] else chunks[1..];
            var r := Stretches(str, chunks);
            Sum(left) == |str[len..]| && str[..len] <= r[0] && |str[..len]| == len &&
            Stretches(str[len..], left) == [r[0][len..]] + r[1..]
  {
    hide Stretches;
    var c := chunks[0];
    var more := Stretches(str[c..], chunks[1..]);
    FirstStretch(str, chunks);
    Cut(str[..c], more[0], len);
    assert str[..c][..len] == str[..len] && str[..c][len..] == str[len..c];
    if len < c {
      var left := [c - len] + chunks[1..];
      assert left[1..] == chunks[1..] && str[len..][c - len..] == str[c..] && str[len..][..c - len] == str[len..c];
      FirstStretch(str[len..], left);
    } else {
      assert str[len..c] + more[0] == more[0] && [more[0]] + more[1..] == more;
    }
  }

  lemma FirstStretch(str: string, chunks: seq<nat>)
    requires Sum(chunks) == |str| && chunks != [] && chunks[0] > 0
    ensures Sum(chunks[1..]) == |str[chunks[0]..]|
    ensures var more := Stretches(str[chunks[0]..], chunks[1..]);
            Stretches(str, chunks) == [str[..chunks[0]] + more[0]] + more[1..]
  {
  }

  lemma Cut(a: string, b: string, len: nat)
    requires len <= |a|
    ensures (a + b)[..len] == a[..len] && (a + b)[len..] == a[len..] + b
  {
  }

  lemma LoseEmptyPiece(str: string, chunks: seq<nat>)
    requires Sum(chunks) == |str| && str != "" && chunks != [] && chunks[0] == 0
    ensures Sum(chunks[1..]) == |str|
    ensures var r := Stretches(str, chunks);
            r[0] == "" && r[1..] == Stretches(str, chunks[1..]) && HasBytes(r[1..])
  {
    StretchesHaveBytes(str, chunks[1..]);
  }

  lemma NothingLeft(str: string, chunks: seq<nat>)
    requires Sum(chunks) == |str| && str == ""
    ensures Stretches(str, chunks)[0] == "" && !HasBytes(Stretches(str, chunks)[1..])
  {
    hide Stretches;
    StretchesHaveBytes(str, chunks);
    var r := Stretches(str, chunks);
    forall i | 0 <= i < |r[1..]| ensures r[1..][i] == "" {
      assert r[1..][i] == r[i + 1];
    }
  }

  /** Where nothing is queued, nothing is to come. */
  lemma StretchesEnd(str: string, chunks: seq<nat>)
    requires Sum(chunks) == |str|
    ensures chunks == [] ==> str == ""
    ensures str == "" ==> Stretches(str, chunks)[0] == "" && !HasBytes(Stretches(str, chunks)[1..])
    ensures chunks != [] ==> chunks[0] <= |str|
    ensures str != "" && chunks[0] > 0 ==> Stretches(str, chunks)[0] != ""
  {
    if str == "" {
      NothingLeft(str, chunks);
    }
  }

  lemma OneStretch(data: string)
    requires data != ""
    ensures Sum([|data|]) == |data| && Stretches(data, [|data|]) == [data]
  {
    assert [|data|][1..] == [] && data[|data|..] == "" && data[..|data|] == data;
    assert Stretches(data[|data|..], []) == [""] && data + "" == data;
    assert [data] + [""][1..] == [data];
  }

  class Transport {
    const eager: bool  // a StringBuffer; any other Reader may return less than it has
    var str: string
    var chunks: seq<nat>
    var closed: bool
    ghost var written: string  // everything ever written
    ghost var taken: string  // everything ever read
    ghost var asked: nat  // the furthest position ever asked for

    /** No byte is lost, repeated or reordered, and the pieces account for what is queued. */
    ghost predicate Valid()
      reads this
    {
      written == taken + str && Sum(chunks) == |str|
    }

    /** What can be read before a read returns nothing. */
    ghost function Rest(): string
      reads this
      requires Valid()
    {
      if closed then "" else Stretches(str, chunks)[0]
    }

    /** The stretches after that. */
    ghost function Later(): seq<string>
      reads this
      requires Valid()
    {
      if closed then [] else Stretches(str, chunks)[1..]
    }

    /** An empty StringBuffer. */
    constructor StringBuffer()
      ensures Valid() && eager && !closed && written == taken == "" && chunks == [] && asked == 0
    {
      eager, str, chunks, closed, written, taken, asked := true, "", [], false, "", "", 0;
    }

    /** Some Reader that will deliver the data. */
    constructor Reader(data: string)
      ensures Valid() && !eager && !closed && Rest() == data && Later() == [] && taken == "" && asked == 0
    {
      eager, str, chunks, closed := false, data, if data == "" then [] else [|data|], false;
      written, taken, asked := data, "", 0;
      new;
      if data != "" {
        OneStretch(data);
      }
    }

    method Close()
      requires Valid()
      modifies this`closed
      ensures Valid() && closed && Rest() == "" && Later() == []
    {
      closed := true;
    }

    method Write(bytes: string) returns (ok: bool)
      requires Valid()
      modifies this`str, this`chunks, this`written
      ensures Valid() && ok == !closed
      ensures written == if ok then old(written) + bytes else old(written)
      ensures str == if ok then old(str) + bytes else old(str)
      ensures chunks == if ok then old(chunks) + [|bytes|] else old(chunks)
    {
      if closed {
        return false;
      }
      SumSnoc(chunks, |bytes|);
      assert taken + (str + bytes) == written + bytes;
      str := str + bytes;
      chunks := chunks + [|bytes|];
      written := written + bytes;
      return true;
    }

    /** Up to `bytes` bytes of the piece in front, all of them that are wanted if this is a
        StringBuffer. Nothing comes back from an open transport that still holds bytes exactly
        when none were asked for or the piece in front is empty; that piece is then gone. */
    method Read(bytes: nat) returns (got: string)
      requires Valid()
      modifies this`str, this`chunks, this`taken, this`asked
      ensures Valid() && |got| <= bytes && taken == old(taken) + got
      ensures asked == Max(old(asked), old(|taken|) + bytes)
      ensures got == "" <==> closed || bytes == 0 || old(str) == "" || old(chunks)[0] == 0
      ensures got != "" && eager ==> |got| == Min(bytes, old(chunks)[0])
      ensures got != "" ==>
                got <= old(Rest()) && Rest() == old(Rest())[|got|..] && Later() == old(Later()) &&
                chunks == (if |got| < old(chunks)[0] then [old(chunks)[0] - |got|] else []) + old(chunks)[1..]
      ensures got == "" && bytes > 0 ==>
                old(Rest()) == "" && Rest() == (if HasBytes(old(Later())) then old(Later())[0] else "") &&
                Later() == (if HasBytes(old(Later())) then old(Later())[1..] else old(Later()))
      ensures got == "" ==>
                chunks == if closed || bytes == 0 || old(str) == "" then old(chunks) else old(chunks)[1..]
    {
      hide Stretches, Sum;
      StretchesEnd(str, chunks);
      asked := if asked < |taken| + bytes then |taken| + bytes else asked;
      if closed || bytes == 0 || |str| == 0 || |chunks| == 0 {
        return "";
      }
      var front := chunks[0];
      var len := Min(bytes, front);
      if !eager && len > 0 {
        var most := len;
        len :| 1 <= len <= most;
      }
      if len == 0 {
        LoseEmptyPiece(str, chunks);
      } else {
        TakeStretch(str, chunks, len);
      }
      got := str[..len];
      assert taken + str == taken + got + str[len..];
      str := str[len..];
      taken := taken + got;
      if len < front {
        chunks := [front - len] + chunks[1..];
      } else {
        chunks := chunks[1..];
      }
    }
  }
}

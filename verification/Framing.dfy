/** Length-prefixed framing (`write_length_prefixed`, `read_length_prefixed`): a 32-bit
    big-endian length, then the bytes. */
module Framing {
  import opened Protocol

  type byte = b: int | 0 <= b < 256

  const TWO32: nat := 0x1_0000_0000

  /** `(n as u32).to_be_bytes()`: a longer length is cut to 32 bits. */
  function LengthBytes(n: nat): (r: seq<byte>)
    ensures |r| == 4
  {
    [n / 0x100_0000 % 256, n / 0x1_0000 % 256, n / 0x100 % 256, n % 256]
  }

  function LengthOf(s: seq<byte>): nat
    requires |s| == 4
  {
    s[0] as int * 0x100_0000 + s[1] as int * 0x1_0000 + s[2] as int * 0x100 + s[3] as int
  }

  /** The bytes of a number, one division at a time. */
  lemma ByteByByte(n: nat)
    ensures n / 0x1_0000 == n / 0x100 / 0x100
    ensures n / 0x100_0000 == n / 0x1_0000 / 0x100
  {
  }

  lemma LowWord(high: nat, low: nat)
    requires low < TWO32
    ensures (high * TWO32 + low) % TWO32 == low
  {
  }

  lemma LengthRoundTrip(n: nat)
    ensures LengthOf(LengthBytes(n)) == n % TWO32
  {
    var a, b, c := n / 0x100, n / 0x1_0000, n / 0x100_0000;
    ByteByByte(n);
    var low := LengthOf(LengthBytes(n));
    assert low == c % 256 * 0x100_0000 + b % 256 * 0x1_0000 + a % 256 * 0x100 + n % 256;
    hide LengthOf, LengthBytes;
    assert n == a * 0x100 + n % 256 && a == b * 0x100 + a % 256 && b == c * 0x100 + b % 256;
    assert c == c / 256 * 256 + c % 256;
    LowWord(c / 256, low);
  }

  lemma LengthIsBelow32Bits(s: seq<byte>)
    requires |s| == 4
    ensures LengthOf(s) < TWO32
    ensures LengthBytes(LengthOf(s)) == s
  {
    var n := LengthOf(s);
    ByteByByte(n);
    TopAndByte(s[0] as int * 0x1_0000 + s[1] as int * 0x100 + s[2] as int, s[3]);
    TopAndByte(s[0] as int * 0x100 + s[1] as int, s[2]);
    TopAndByte(s[0] as int, s[1]);
  }

  lemma TopAndByte(top: nat, b: byte)
    ensures (top * 0x100 + b as int) / 0x100 == top && (top * 0x100 + b as int) % 256 == b
  {
  }

  /** The prefix is big-endian: read with the most significant byte first it is the length, modulo 2^32. */
  lemma MostSignificantFirst(n: nat)
    ensures var s := LengthBytes(n);
            s[0] as int * 0x100_0000 + s[1] as int * 0x1_0000 + s[2] as int * 0x100 + s[3] as int == n % 0x1_0000_0000
  {
    LengthRoundTrip(n);
    hide LengthBytes;
  }

  /** Dictionary order of two byte strings of one length. */
  predicate Before(s: seq<byte>, t: seq<byte>)
    requires |s| == |t|
  {
    s != [] && (s[0] < t[0] || (s[0] == t[0] && Before(s[1..], t[1..])))
  }

  lemma DictionaryOrder(s: seq<byte>, t: seq<byte>)
    requires |s| == |t| == 4
    ensures Before(s, t) <==>
            || s[0] < t[0]
            || (s[0] == t[0] && s[1] < t[1])
            || (s[0] == t[0] && s[1] == t[1] && s[2] < t[2])
            || (s[0] == t[0] && s[1] == t[1] && s[2] == t[2] && s[3] < t[3])
  {
    assert s[1..][1..] == s[2..] && s[2..][1..] == s[3..] && t[1..][1..] == t[2..] && t[2..][1..] == t[3..];
    assert Before(s[3..], t[3..]) <==> s[3] < t[3];
    assert Before(s[2..], t[2..]) <==> s[2] < t[2] || (s[2] == t[2] && Before(s[3..], t[3..]));
    assert Before(s[1..], t[1..]) <==> s[1] < t[1] || (s[1] == t[1] && Before(s[2..], t[2..]));
  }

  lemma NumbersSort(a: byte, b: byte, c: byte, d: byte, p: byte, q: byte, r: byte, s: byte)
    ensures a as int * 0x100_0000 + b as int * 0x1_0000 + c as int * 0x100 + d as int
            < p as int * 0x100_0000 + q as int * 0x1_0000 + r as int * 0x100 + s as int <==>
            a < p || (a == p && b < q) || (a == p && b == q && c < r) || (a == p && b == q && c == r && d < s)
  {
  }

  /** Prefixes sort as the lengths do, as only the most significant byte first can. */
  lemma PrefixesSort(m: nat, n: nat)
    requires m < TWO32 && n < TWO32
    ensures Before(LengthBytes(m), LengthBytes(n)) <==> m < n
  {
    var s, t := LengthBytes(m), LengthBytes(n);
    LowWord(0, m);
    LowWord(0, n);
    MostSignificantFirst(m);
    MostSignificantFirst(n);
    hide LengthBytes;
    DictionaryOrder(s, t);
    hide Before;
    NumbersSort(s[0], s[1], s[2], s[3], t[0], t[1], t[2], t[3]);
  }

  function Frame(m: seq<byte>): seq<byte> {
    LengthBytes(|m|) + m
  }

  /** One read: the message and what is left, or an error when the input ends too early. */
  function ReadFrame(s: seq<byte>): Option<(seq<byte>, seq<byte>)> {
    if |s| < 4 then None
    else
      var n := LengthOf(s[..4]);
      if |s| - 4 < n then None else Some((s[4..4 + n], s[4 + n..]))
  }

  function WriteAll(ms: seq<seq<byte>>): seq<byte> {
    if ms == [] then [] else Frame(ms[0]) + WriteAll(ms[1..])
  }

  /** Reading until the first error; the rest is what could not be read. */
  function ReadAll(s: seq<byte>): (seq<seq<byte>>, seq<byte>)
    decreases |s|
  {
    match ReadFrame(s)
    case None => ([], s)
    case Some((m, rest)) =>
      var (ms, left) := ReadAll(rest);
      ([m] + ms, left)
  }

  predicate Short(ms: seq<seq<byte>>) {
    forall i :: 0 <= i < |ms| ==> |ms[i]| < TWO32
  }

  /** A frame is read back as written exactly when its message fits the 32-bit length. */
  lemma FrameRoundTrip(m: seq<byte>, rest: seq<byte>)
    ensures ReadFrame(Frame(m) + rest) == Some((m, rest)) <==> |m| < TWO32
  {
    hide LengthBytes, LengthOf;
    var s := Frame(m) + rest;
    assert s[..4] == LengthBytes(|m|);
    LengthRoundTrip(|m|);
    LengthIsBelow32Bits(s[..4]);
    if |m| < TWO32 {
      assert s[4..4 + |m|] == m && s[4 + |m|..] == rest;
    }
  }

  /** The other way round: what a read accepts is exactly a written frame. */
  lemma ReadFrameInverts(s: seq<byte>)
    requires ReadFrame(s).Some?
    ensures Frame(ReadFrame(s).value.0) + ReadFrame(s).value.1 == s
    ensures |ReadFrame(s).value.0| < TWO32
  {
    hide LengthBytes, LengthOf;
    LengthIsBelow32Bits(s[..4]);
  }

  lemma WriteOneMore(m: seq<byte>, ms: seq<seq<byte>>)
    ensures WriteAll([m] + ms) == Frame(m) + WriteAll(ms)
    ensures |m| < TWO32 && Short(ms) ==> Short([m] + ms)
  {
    hide Frame;
    assert ([m] + ms)[1..] == ms;
  }

  lemma {:induction false} ReadOneMore(s: seq<byte>)
    requires ReadFrame(s).Some?
    ensures var (m, rest) := ReadFrame(s).value;
            |rest| < |s| && ReadAll(s) == ([m] + ReadAll(rest).0, ReadAll(rest).1)
  {
    hide LengthOf;
  }

  lemma {:induction false} ReadAllInverts(s: seq<byte>)
    ensures var (ms, left) := ReadAll(s);
            Short(ms) && WriteAll(ms) + left == s && ReadFrame(left) == None
    decreases |s|
  {
    hide LengthBytes, LengthOf, Frame, WriteAll, ReadFrame, Short, ReadAll;
    if ReadFrame(s).Some? {
      var (m, rest) := ReadFrame(s).value;
      ReadFrameInverts(s);
      ReadOneMore(s);
      ReadAllInverts(rest);
      var (ms, left) := ReadAll(rest);
      WriteOneMore(m, ms);
      Regroup(Frame(m), WriteAll(ms), left);
    } else {
      NothingRead(s);
    }
  }

  lemma NothingRead(s: seq<byte>)
    requires ReadFrame(s).None?
    ensures ReadAll(s) == ([], s) && Short([]) && WriteAll([]) + s == s
  {
    hide ReadFrame;
    assert [] + s == s;
  }

  lemma Regroup(a: seq<byte>, b: seq<byte>, c: seq<byte>)
    ensures a + (b + c) == (a + b) + c
  {
  }

  /** Reading what was written gives exactly the messages, in order, and then the end. */
  lemma {:induction false} StreamRoundTrip(ms: seq<seq<byte>>)
    requires Short(ms)
    ensures ReadAll(WriteAll(ms)) == (ms, [])
  {
    if ms != [] {
      FrameRoundTrip(ms[0], WriteAll(ms[1..]));
      StreamRoundTrip(ms[1..]);
      assert [ms[0]] + ms[1..] == ms;
    }
  }

  lemma StreamIsInjective(ms: seq<seq<byte>>, ns: seq<seq<byte>>)
    requires Short(ms) && Short(ns) && WriteAll(ms) == WriteAll(ns)
    ensures ms == ns
  {
    StreamRoundTrip(ms);
    StreamRoundTrip(ns);
  }

  /** A stream cut anywhere yields precisely the messages that arrived whole, then an error:
      never a wrong message, never a missing one. */
  lemma {:induction false} CutStream(ms: seq<seq<byte>>, cut: nat)
    requires Short(ms) && cut <= |WriteAll(ms)|
    ensures var got := ReadAll(WriteAll(ms)[..cut]).0;
            && got <= ms
            && |WriteAll(got)| <= cut
            && (got != ms ==> cut < |WriteAll(ms[..|got| + 1])|)
  {
    hide LengthBytes, LengthOf;
    if ms != [] {
      hide ReadFrame;
      var first, all := Frame(ms[0]), WriteAll(ms);
      if cut < |first| {
        CutFrame(ms[0], all[..cut]);
        assert ms[..1] == [ms[0]] && WriteAll([ms[0]]) == first + WriteAll([]);
      } else {
        var rest := WriteAll(ms[1..])[..cut - |first|];
        assert all[..cut] == first + rest;
        FrameRoundTrip(ms[0], rest);
        CutStream(ms[1..], cut - |first|);
        var got := ReadAll(rest).0;
        assert ([ms[0]] + got)[1..] == got;
        if got != ms[1..] {
          assert ms[..|got| + 2][1..] == ms[1..][..|got| + 1];
        }
      }
    }
  }

  lemma CutFrame(m: seq<byte>, s: seq<byte>)
    requires |m| < TWO32 && s < Frame(m)
    ensures ReadFrame(s) == None
  {
    hide LengthBytes, LengthOf;
    if |s| >= 4 {
      assert s[..4] == LengthBytes(|m|);
      LengthRoundTrip(|m|);
    }
  }

  // ---------- the two functions of the program ----------

  /** A byte stream: writes append, reads consume; a write may fail part of the way, and such
      failures are counted. */
  class ByteStream {
    var written: seq<byte>
    var unread: seq<byte>
    var failures: nat

    constructor (input: seq<byte>)
      ensures written == [] && unread == input && failures == 0
    {
      written := [];
      unread := input;
      failures := 0;
    }

    /** `write_all` */
    method Write(bytes: seq<byte>) returns (ok: bool)
      modifies this`written, this`failures
      ensures if ok then written == old(written) + bytes
              else old(written) <= written < old(written) + bytes
      ensures failures == if ok then old(failures) else old(failures) + 1
    {
      var n: int := *;
      if 0 <= n < |bytes| {
        written := written + bytes[..n];
        failures := failures + 1;
        ok := false;
      } else {
        written := written + bytes;
        ok := true;
      }
    }

    /** `read_exact`: fills the buffer, or fails having consumed what there was. */
    method ReadExact(buf: array<byte>) returns (ok: bool)
      modifies this`unread, buf
      ensures ok <==> buf.Length <= |old(unread)|
      ensures ok ==> buf[..] == old(unread)[..buf.Length] && unread == old(unread)[buf.Length..]
      ensures !ok ==> unread == []
    {
      if |unread| < buf.Length {
        unread := [];
        return false;
      }
      forall i | 0 <= i < buf.Length {
        buf[i] := unread[i];
      }
      unread := unread[buf.Length..];
      ok := true;
    }
  }

  /** When no write fails the whole frame is on the stream, its length first, most significant byte
      first; otherwise a proper beginning of it, which `CutFrame` says no reader takes for a message. */
  method WriteLengthPrefixed(stream: ByteStream, data: seq<byte>) returns (ok: bool)
    modifies stream`written, stream`failures
    ensures ok <==> stream.failures == old(stream.failures)
    ensures ok ==>
              var n := |old(stream.written)|;
              && |stream.written| == n + 4 + |data| && stream.written[n + 4..] == data
              && |data| % 0x1_0000_0000 == stream.written[n] as int * 0x100_0000 + stream.written[n + 1] as int * 0x1_0000
                                         + stream.written[n + 2] as int * 0x100 + stream.written[n + 3] as int
    ensures if ok then stream.written == old(stream.written) + Frame(data)
            else old(stream.written) <= stream.written < old(stream.written) + Frame(data)
  {
    MostSignificantFirst(|data|);
    hide LengthBytes;
    ok := stream.Write(LengthBytes(|data|));
    if ok {
      ok := stream.Write(data);
    }
  }

  /** Takes one whole message off the stream, if there is one. */
  method ReadLengthPrefixed(stream: ByteStream) returns (r: Option<seq<byte>>)
    modifies stream`unread
    ensures var s := old(stream.unread);
            r.Some? <==> |s| >= 4 && s[0] as int * 0x100_0000 + s[1] as int * 0x1_0000 + s[2] as int * 0x100 + s[3] as int <= |s| - 4
    ensures r.Some? ==>
              var s := old(stream.unread);
              && |r.value| == s[0] as int * 0x100_0000 + s[1] as int * 0x1_0000 + s[2] as int * 0x100 + s[3] as int
              && r.value == s[4..4 + |r.value|] && stream.unread == s[4 + |r.value|..]
    ensures match ReadFrame(old(stream.unread))
            case None => r == None
            case Some((m, rest)) => r == Some(m) && stream.unread == rest
  {
    ghost var s := stream.unread;
    var lenBuf := new byte[4](_ => 0);
    var ok := stream.ReadExact(lenBuf);
    if !ok {
      return None;
    }
    var len := LengthOf(lenBuf[..]);
    var buf := new byte[len](_ => 0);
    ok := stream.ReadExact(buf);
    assert len <= |s| - 4 ==> s[4..][..len] == s[4..4 + len] && s[4..][len..] == s[4 + len..];
    r := if ok then Some(buf[..]) else None;
  }
}

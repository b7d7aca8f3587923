/** The byte ring of stream_buffer.c, and whole messages carried over it. */
module StreamBuffers {
  import opened Circular

  type byte = n: nat | n < 256

  const LENGTH_BYTES: nat := 4   // sbBYTES_TO_STORE_MESSAGE_LENGTH

  /** prvBytesInBuffer. */
  function BytesIn(length: nat, head: nat, tail: nat): (r: nat)
    requires head < length && tail < length
    ensures r < length && Wrap(tail + r, length) == head
  {
    Wrap(length + head - tail, length)
  }

  /** xStreamBufferSpacesAvailable. */
  function Spaces(length: nat, head: nat, tail: nat): (r: nat)
    requires head < length && tail < length
    ensures r == length - 1 - BytesIn(length, head, tail)
  {
    Wrap(length + tail - head - 1, length)
  }

  /** Reading on around the ring. */
  lemma AroundSplit(s: seq<byte>, from: nat, a: nat, b: nat)
    requires from < |s| && a + b <= |s| && a < |s|
    ensures Around(s, from, a + b) == Around(s, from, a) + Around(s, Wrap(from + a, |s|), b)
  {
  }

  /** t is s with data written around the ring from place at. */
  ghost predicate Written(t: seq<byte>, s: seq<byte>, at: nat, data: seq<byte>) {
    && |t| == |s| && at < |s| && |data| < |s|
    && (forall i | 0 <= i < |s| ::
          t[i] == if at <= i < at + |data| then data[i - at]
                  else if at <= i + |s| < at + |data| then data[i + |s| - at] else s[i])
  }

  /** Writing behind the unread bytes leaves them and appends the data. */
  lemma AroundWritten(t: seq<byte>, s: seq<byte>, from: nat, count: nat, data: seq<byte>)
    requires from < |s| && count + |data| < |s| && Written(t, s, Wrap(from + count, |s|), data)
    ensures Around(t, from, count + |data|) == Around(s, from, count) + data
  {
  }

  // ---- message framing ----

  /** A message length as the four bytes a little-endian processor stores. */
  function Encode(n: nat): (r: seq<byte>)
    requires n < 0x1_0000_0000
    ensures |r| == LENGTH_BYTES
  {
    [n % 256, n / 256 % 256, n / 0x1_0000 % 256, n / 0x100_0000 % 256]
  }

  function Decode(s: seq<byte>): nat
    requires |s| == LENGTH_BYTES
  {
    var a: nat, b: nat, c: nat, d: nat := s[0], s[1], s[2], s[3];
    a + 256 * b + 0x1_0000 * c + 0x100_0000 * d
  }

  lemma LengthRoundTrip(n: nat)
    requires n < 0x1_0000_0000
    ensures Decode(Encode(n)) == n
  {
    var a, b, c := n / 256, n / 0x1_0000, n / 0x100_0000;
    DivideAgain(n);
    assert n == 256 * a + n % 256;
    assert a == 256 * b + a % 256;
    assert b == 256 * c + b % 256;
  }

  lemma DivideAgain(n: nat)
    requires n < 0x1_0000_0000
    ensures n / 0x1_0000 == n / 256 / 256
    ensures n / 0x100_0000 == n / 0x1_0000 / 256 < 256
  {
  }

  ghost predicate Framable(ms: seq<seq<byte>>) {
    forall i | 0 <= i < |ms| :: 0 < |ms[i]| < 0x1_0000_0000
  }

  /** The bytes a sequence of messages occupies. */
  ghost function Frame(ms: seq<seq<byte>>): seq<byte>
    requires Framable(ms)
  {
    if ms == [] then [] else Encode(|ms[0]|) + ms[0] + Frame(ms[1..])
  }

  lemma {:induction false} FrameAppend(ms: seq<seq<byte>>, m: seq<byte>)
    requires Framable(ms) && 0 < |m| < 0x1_0000_0000
    ensures Framable(ms + [m]) && Frame(ms + [m]) == Frame(ms) + Encode(|m|) + m
  {
    if ms == [] {
      assert ms + [m] == [m] && [m][1..] == [];
    } else {
      assert (ms + [m])[1..] == ms[1..] + [m];
      FrameAppend(ms[1..], m);
    }
  }

  class StreamBuffer {
    const buffer: array<byte>
    const length: nat
    const isMessageBuffer: bool
    var head: nat
    var tail: nat

    ghost predicate Valid()
      reads this, buffer
    {
      1 < length == buffer.Length && head < length && tail < length
    }

    /** The unread bytes. */
    ghost function Contents(): seq<byte>
      requires Valid()
      reads this, buffer
    {
      Around(buffer[..], tail, BytesIn(length, head, tail))
    }

    /** prvInitialiseNewStreamBuffer. */
    constructor (size: nat, forMessages: bool)
      requires size > 1
      ensures Valid() && Contents() == [] && fresh(buffer) && length == size && isMessageBuffer == forMessages
    {
      buffer := new byte[size];
      length, isMessageBuffer, head, tail := size, forMessages, 0, 0;
    }

    /** prvWriteBytesToBuffer: one or two copies, and then the new head. */
    method WriteBytes(data: seq<byte>)
      requires Valid() && 0 < |data| <= Spaces(length, head, tail)
      modifies `head, buffer
      ensures Valid() && Contents() == old(Contents()) + data
    {
      ghost var before, count := buffer[..], BytesIn(length, head, tail);
      var nextHead := head;
      var firstLength := if length - nextHead < |data| then length - nextHead else |data|;
      forall i | nextHead <= i < nextHead + firstLength {
        buffer[i] := data[i - nextHead];
      }
      if |data| > firstLength {
        forall i | 0 <= i < |data| - firstLength {
          buffer[i] := data[firstLength + i];
        }
      }
      AroundWritten(buffer[..], before, tail, count, data);
      nextHead := nextHead + |data|;
      if nextHead >= length {
        nextHead := nextHead - length;
      }
      head := nextHead;
      assert BytesIn(length, head, tail) == count + |data|;
    }

    /** prvReadBytesFromBuffer: as many bytes as are wanted and available, in one or two copies, and then
        the new tail. */
    method ReadBytes(maxCount: nat, available: nat) returns (data: seq<byte>)
      requires Valid() && available <= BytesIn(length, head, tail)
      modifies `tail
      ensures Valid() && old(Contents()) == data + Contents()
      ensures |data| == if maxCount < available then maxCount else available
    {
      var count := if available < maxCount then available else maxCount;
      data := [];
      if count > 0 {
        ghost var all := BytesIn(length, head, tail);
        AroundSplit(buffer[..], tail, count, all - count);
        assert BytesIn(length, head, Wrap(tail + count, length)) == all - count;
        data := CopyOut(count);
        var nextTail := tail + count;
        if nextTail >= length {
          nextTail := nextTail - length;
        }
        tail := nextTail;
      }
    }

    /** The one or two copies of a read. */
    method CopyOut(count: nat) returns (data: seq<byte>)
      requires Valid() && 0 < count <= length
      ensures data == Around(buffer[..], tail, count)
    {
      var firstLength := if length - tail < count then length - tail else count;
      data := buffer[tail..tail + firstLength];
      if count > firstLength {
        data := data + buffer[..count - firstLength];
      }
    }

    /** The buffer holds whole messages. */
    ghost predicate Holds(ms: seq<seq<byte>>)
      reads this, buffer
    {
      Valid() && Framable(ms) && Contents() == Frame(ms)
    }

    /** prvWriteMessageToBuffer on a stream buffer: as much as fits. */
    method SendStream(data: seq<byte>) returns (sent: nat)
      requires Valid() && |data| > 0
      modifies `head, buffer
      ensures Valid() && sent == var room := length - 1 - |old(Contents())|; if |data| < room then |data| else room
      ensures Contents() == old(Contents()) + data[..sent]
    {
      var space := Spaces(length, head, tail);
      sent := if |data| < space then |data| else space;
      if space > 0 {
        WriteBytes(data[..sent]);
      }
    }

    /** prvWriteMessageToBuffer on a message buffer: the length and the message, or nothing. */
    method SendMessage(ghost ms: seq<seq<byte>>, m: seq<byte>) returns (sent: nat)
      requires Holds(ms) && 0 < |m| < 0x1_0000_0000 - LENGTH_BYTES
      modifies `head, buffer
      ensures sent == if |Frame(ms)| + LENGTH_BYTES + |m| < length then |m| else 0
      ensures Holds(if sent > 0 then ms + [m] else ms)
    {
      var space := Spaces(length, head, tail);
      sent := 0;
      if space > 0 && space >= |m| + LENGTH_BYTES {
        WriteBytes(Encode(|m|));
        WriteBytes(m);
        FrameAppend(ms, m);
        sent := |m|;
      }
    }

    /** xStreamBufferReceive and prvReadMessageFromBuffer on a message buffer: the next message whole, or,
        when there is none or it is longer than the caller's buffer, nothing and no change. */
    method ReceiveMessage(ghost ms: seq<seq<byte>>, bufferLength: nat) returns (m: seq<byte>)
      requires Holds(ms)
      modifies `tail
      ensures if ms != [] && |ms[0]| <= bufferLength then m == ms[0] && Holds(ms[1..]) else m == [] && Holds(ms)
    {
      var available := BytesIn(length, head, tail);
      m := [];
      if available > LENGTH_BYTES {
        var originalTail := tail;
        assert Contents() == Encode(|ms[0]|) + (ms[0] + Frame(ms[1..]));
        var field := ReadBytes(LENGTH_BYTES, available);
        Prefixes(field, Contents(), Encode(|ms[0]|), ms[0] + Frame(ms[1..]));
        LengthRoundTrip(|ms[0]|);
        var next := Decode(field);
        available := available - LENGTH_BYTES;
        if next > bufferLength {
          tail := originalTail;
        } else {
          m := ReadBytes(next, available);
          Prefixes(m, Contents(), ms[0], Frame(ms[1..]));
        }
      }
    }
  }

  /** Two splits of one sequence at the same place are the same split. */
  lemma Prefixes(a: seq<byte>, b: seq<byte>, c: seq<byte>, d: seq<byte>)
    requires a + b == c + d && |a| == |c|
    ensures a == c && b == d
  {
    assert a == (a + b)[..|a|] == c && b == (a + b)[|a|..] == d;
  }
}

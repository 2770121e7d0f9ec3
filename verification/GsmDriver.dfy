/** The receive side of the modem driver (gsm_driver.c): a callback cuts the byte stream of the UART into
    lines and puts them on a bounded queue. */
module GsmDriver {
  import opened Sequences

  const UART_MAX_MSG_LEN: nat := 1280
  const UART_MAX_MSG_QUEUE_SIZE: nat := 20

  type byte = x: int | 0 <= x < 256

  // ----- the stream

  predicate Terminator(c: byte) {
    c == 10 || c == 13 || c == 0
  }

  /** What has come in since the last terminator. */
  function Open(stream: seq<byte>): seq<byte> {
    if stream == [] || Terminator(Last(stream)) then [] else Open(Front(stream)) + [Last(stream)]
  }

  /** What the 8-bit write position leaves of a line: its last |line| mod 256 bytes. */
  function Kept(line: seq<byte>): seq<byte> {
    line[|line| - |line| % 256..]
  }

  function OfferedLine(line: seq<byte>): seq<seq<byte>> {
    if |line| % 256 == 0 then [] else [Kept(line)]
  }

  /** The strings offered to the queue. */
  function Offered(stream: seq<byte>): seq<seq<byte>> {
    if stream == [] then []
    else
      Offered(Front(stream)) + if Terminator(Last(stream)) then OfferedLine(Open(Front(stream))) else []
  }

  // ----- framing, stated on the lines of the stream

  /** A line of the stream and the byte that ended it. */
  datatype Line = Line(text: seq<byte>, end: byte)

  predicate IsLine(l: Line) {
    Terminator(l.end) && forall c :: c in l.text ==> !Terminator(c)
  }

  function Join(lines: seq<Line>): seq<byte> {
    if lines == [] then [] else Join(Front(lines)) + Last(lines).text + [Last(lines).end]
  }

  function OfferedLines(lines: seq<Line>): seq<seq<byte>> {
    if lines == [] then [] else OfferedLines(Front(lines)) + OfferedLine(Last(lines).text)
  }

  lemma {:induction false} OpenText(stream: seq<byte>, text: seq<byte>)
    requires stream == [] || Terminator(Last(stream))
    requires forall c :: c in text ==> !Terminator(c)
    ensures Open(stream + text) == text && Offered(stream + text) == Offered(stream)
  {
    if text == [] {
      assert stream + text == stream;
    } else {
      OpenText(stream, Front(text));
      assert Front(stream + text) == stream + Front(text);
      assert Last(text) in text;
    }
  }

  /** Framing: for every stream, written as its lines and an unfinished rest, the strings offered are the
      lines in order, each cut to its last length-mod-256 bytes, and nothing for a line that leaves none. */
  lemma {:induction false} Framing(lines: seq<Line>, rest: seq<byte>)
    requires forall l :: l in lines ==> IsLine(l)
    requires forall c :: c in rest ==> !Terminator(c)
    ensures Offered(Join(lines) + rest) == OfferedLines(lines) && Open(Join(lines) + rest) == rest
  {
    if lines != [] {
      var l := Last(lines);
      assert IsLine(l);
      Framing(Front(lines), l.text);
      assert Front(Join(lines)) == Join(Front(lines)) + l.text;
    }
    OpenText(Join(lines), rest);
  }

  /** The strings offered are exactly the nonempty lines if and only if no line is longer than 255 bytes. */
  lemma {:induction false} ShortLinesWhole(lines: seq<Line>)
    ensures OfferedLines(lines) == NonemptyLines(lines) <==> forall l :: l in lines ==> |l.text| <= 255
  {
    BytesOffered(lines);
    if forall l :: l in lines ==> |l.text| <= 255 {
      WholeIfShort(lines);
    }
  }

  lemma {:induction false} WholeIfShort(lines: seq<Line>)
    requires forall l :: l in lines ==> |l.text| <= 255
    ensures OfferedLines(lines) == NonemptyLines(lines)
  {
    if lines != [] {
      WholeIfShort(Front(lines));
      assert Last(lines) in lines;
      assert Kept(Last(lines).text) == Last(lines).text;
    }
  }

  function Bytes(ls: seq<seq<byte>>): nat {
    if ls == [] then 0 else Bytes(Front(ls)) + |Last(ls)|
  }

  lemma BytesAppend(ls: seq<seq<byte>>, l: seq<byte>)
    ensures Bytes(ls + [l]) == Bytes(ls) + |l|
  {
    FrontLast(ls, l);
  }

  lemma LineBytes(ls: seq<seq<byte>>, text: seq<byte>)
    ensures Bytes(ls + OfferedLine(text)) == Bytes(ls) + |text| % 256
    ensures Bytes(ls + if text == [] then [] else [text]) == Bytes(ls) + |text|
  {
    assert ls + [] == ls;
    BytesAppend(ls, Kept(text));
    BytesAppend(ls, text);
  }

  /** A line of more than 255 bytes loses some. */
  lemma {:induction false} BytesOffered(lines: seq<Line>)
    ensures Bytes(OfferedLines(lines)) <= Bytes(NonemptyLines(lines))
    ensures (exists l :: l in lines && |l.text| > 255) ==> Bytes(OfferedLines(lines)) < Bytes(NonemptyLines(lines))
  {
    hide Bytes, OfferedLine;
    if lines != [] {
      var front, text := Front(lines), Last(lines).text;
      BytesOffered(front);
      LineBytes(OfferedLines(front), text);
      LineBytes(NonemptyLines(front), text);
      assert lines == front + [Last(lines)];
    }
  }

  function NonemptyLines(lines: seq<Line>): seq<seq<byte>> {
    if lines == [] then []
    else NonemptyLines(Front(lines)) + if Last(lines).text == [] then [] else [Last(lines).text]
  }

  /** Every stream has such a form: its lines and a rest. */
  lemma {:induction false} EveryStreamHasLines(stream: seq<byte>) returns (lines: seq<Line>, rest: seq<byte>)
    ensures stream == Join(lines) + rest
    ensures forall l :: l in lines ==> IsLine(l)
    ensures forall c :: c in rest ==> !Terminator(c)
  {
    if stream == [] {
      lines, rest := [], [];
    } else {
      lines, rest := EveryStreamHasLines(Front(stream));
      var c := Last(stream);
      if Terminator(c) {
        FrontLast(lines, Line(rest, c));
        lines, rest := lines + [Line(rest, c)], [];
      } else {
        rest := rest + [c];
      }
      assert stream == Front(stream) + [c];
    }
  }

  lemma {:induction false} OpenClean(stream: seq<byte>)
    ensures forall c :: c in Open(stream) ==> !Terminator(c)
  {
    if stream != [] && !Terminator(Last(stream)) {
      OpenClean(Front(stream));
    }
  }

  /** What ends a line: a line feed (10), a carriage return (13) or a NUL, and no other byte. */
  lemma OnlyTheseEndLines(stream: seq<byte>, c: byte)
    ensures c == 10 || c == 13 || c == 0 ==>
      Open(stream + [c]) == [] && Offered(stream + [c]) == Offered(stream) + OfferedLine(Open(stream))
    ensures c != 10 && c != 13 && c != 0 ==>
      Open(stream + [c]) == Open(stream) + [c] && Offered(stream + [c]) == Offered(stream)
  {
    StreamNext(stream, c);
    assert Offered(stream) + [] == Offered(stream);
  }

  /** No string offered contains one of them. */
  lemma {:induction false} OfferedAreClean(stream: seq<byte>)
    ensures forall m :: m in Offered(stream) ==> 10 !in m && 13 !in m && 0 !in m && 0 < |m| < 256
  {
    if stream != [] {
      var front := Front(stream);
      OfferedAreClean(front);
      OpenClean(front);
      KeptNext(Open(front), 0);
      forall c | c in Kept(Open(front)) ensures c in Open(front) {
      }
    }
  }

  lemma StreamNext(stream: seq<byte>, c: byte)
    ensures Open(stream + [c]) == if Terminator(c) then [] else Open(stream) + [c]
    ensures Offered(stream + [c]) == Offered(stream) + if Terminator(c) then OfferedLine(Open(stream)) else []
    ensures Kept([]) == []
  {
    hide OfferedLine;
    var longer := stream + [c];
    FrontLast(stream, c);
    if Terminator(c) {
      assert Open(longer) == [];
      assert Offered(longer) == Offered(stream) + OfferedLine(Open(stream));
    } else {
      assert Open(longer) == Open(stream) + [c];
      assert Offered(longer) == Offered(stream) + [];
    }
  }

  /** One more byte of a line in the buffer. */
  lemma KeptNext(line: seq<byte>, c: byte)
    ensures |Kept(line)| == |line| % 256
    ensures Kept(line + [c]) == if |line| % 256 == 255 then [] else Kept(line) + [c]
  {
    var n := |line|;
    NextRemainder(n);
    assert (line + [c])[n - n % 256..] == line[n - n % 256..] + [c];
  }

  lemma NextRemainder(n: nat)
    ensures (n + 1) % 256 == if n % 256 == 255 then 0 else n % 256 + 1
  {
    var q, r := n / 256, n % 256;
    assert n == q * 256 + r;
    assert n + 1 == (if r == 255 then (q + 1) * 256 else q * 256 + (r + 1));
  }

  // ----- messages

  /** The C string in a message: its bytes before the first NUL. */
  function CString(m: seq<byte>): seq<byte> {
    if m == [] || m[0] == 0 then [] else [m[0]] + CString(m[1..])
  }

  lemma {:induction false} CStringIs(m: seq<byte>, n: nat)
    requires n < |m| && m[n] == 0 && forall i :: 0 <= i < n ==> m[i] != 0
    ensures CString(m) == m[..n]
  {
    if n > 0 {
      CStringIs(m[1..], n - 1);
      assert m[..n] == [m[0]] + m[1..][..n - 1];
    }
  }

  /** The message put on the queue at the end of a line. */
  lemma MessageIs(m: seq<byte>, line: seq<byte>)
    requires |m| == UART_MAX_MSG_LEN && m[..|line| % 256] == Kept(line) && m[|line| % 256] == 0
    requires forall c :: c in line ==> !Terminator(c)
    ensures CString(m) == Kept(line)
  {
    var n := |line| % 256;
    forall i | 0 <= i < n ensures m[i] != 0 {
      assert m[i] == m[..n][i] == line[|line| - n + i];
      assert line[|line| - n + i] in line;
    }
    CStringIs(m, n);
  }

  function CStrings(ms: seq<seq<byte>>): seq<seq<byte>> {
    if ms == [] then [] else [CString(ms[0])] + CStrings(ms[1..])
  }

  lemma {:induction false} CStringsAppend(ms: seq<seq<byte>>, m: seq<byte>)
    ensures CStrings(ms + [m]) == CStrings(ms) + [CString(m)]
    ensures |CStrings(ms)| == |ms|
  {
    if ms != [] {
      CStringsAppend(ms[1..], m);
      assert (ms + [m])[1..] == ms[1..] + [m];
    }
  }

  /** a is b with some elements left out. */
  predicate Subsequence<T(==)>(a: seq<T>, b: seq<T>)
    decreases |b|
  {
    if a == [] then true
    else if b == [] then false
    else (Last(a) == Last(b) && Subsequence(Front(a), Front(b))) || Subsequence(a, Front(b))
  }

  lemma SubsequenceAppend<T>(a: seq<T>, b: seq<T>, x: T)
    requires Subsequence(a, b)
    ensures Subsequence(a, b + [x]) && Subsequence(a + [x], b + [x])
  {
    FrontLast(a, x);
    FrontLast(b, x);
  }

  lemma {:induction false} SubsequenceLength<T>(a: seq<T>, b: seq<T>)
    requires Subsequence(a, b)
    ensures |a| <= |b| && (|a| == |b| ==> a == b)
    decreases |b|
  {
    if a != [] && b != [] {
      if Subsequence(a, Front(b)) {
        SubsequenceLength(a, Front(b));
      } else {
        SubsequenceLength(Front(a), Front(b));
      }
      assert a == Front(a) + [Last(a)] && b == Front(b) + [Last(b)];
    }
  }

  /** A string is offered: put on the queue, or dropped. */
  lemma QueueNext(taken: seq<seq<byte>>, queue: seq<seq<byte>>, offered: seq<seq<byte>>, m: seq<byte>)
    requires Subsequence(taken + CStrings(queue), offered)
    ensures Subsequence(taken + CStrings(queue), offered + [CString(m)])
    ensures Subsequence(taken + CStrings(queue + [m]), offered + [CString(m)])
  {
    CStringsAppend(queue, m);
    SubsequenceAppend(taken + CStrings(queue), offered, CString(m));
    assert (taken + CStrings(queue)) + [CString(m)] == taken + CStrings(queue + [m]);
  }

  // ----- the driver

  class SerialPort {
    const rxBuf: array<byte>
    var rxBufPos: nat                 // a uint8_t
    var uartMsgq: seq<seq<byte>>
    ghost var stream: seq<byte>       // every byte read so far
    ghost var taken: seq<seq<byte>>   // the strings readers have got
    ghost var drops: seq<nat>         // how full the queue was whenever a message was dropped

    ghost predicate BufferOk()
      reads this, rxBuf
    {
      var open := Open(stream);
      && rxBuf.Length == UART_MAX_MSG_LEN
      && rxBufPos == |open| % 256
      && rxBuf[..rxBufPos] == Kept(open)
    }

    /** The queue and what was taken from it are what was offered, in order, without what was dropped; and
        something was dropped only when the queue was full. */
    ghost predicate QueueOk()
      reads this
    {
      && |uartMsgq| <= UART_MAX_MSG_QUEUE_SIZE
      && Subsequence(taken + CStrings(uartMsgq), Offered(stream))
      && |taken| + |uartMsgq| + |drops| == |Offered(stream)|
      && (forall d :: d in drops ==> d == UART_MAX_MSG_QUEUE_SIZE)
    }

    ghost predicate Valid()
      reads this, rxBuf
    {
      BufferOk() && QueueOk()
    }

    constructor ()
      ensures Valid() && fresh(rxBuf) && stream == [] && taken == [] && uartMsgq == [] && drops == []
    {
      rxBuf := new byte[UART_MAX_MSG_LEN](_ => 0);
      rxBufPos, uartMsgq, stream, taken, drops := 0, [], [], [], [];
    }

    /** k_msgq_put(&uart_msgq, &rx_buf, K_NO_WAIT): the whole buffer is copied, or dropped if the queue is
        full. */
    method Put()
      requires |uartMsgq| <= UART_MAX_MSG_QUEUE_SIZE
      modifies this`uartMsgq, this`drops
      ensures if |old(uartMsgq)| < UART_MAX_MSG_QUEUE_SIZE
              then uartMsgq == old(uartMsgq) + [rxBuf[..]] && drops == old(drops)
              else uartMsgq == old(uartMsgq) && drops == old(drops) + [|old(uartMsgq)|]
    {
      if |uartMsgq| < UART_MAX_MSG_QUEUE_SIZE {
        uartMsgq := uartMsgq + [rxBuf[..]];
      } else {
        drops := drops + [|uartMsgq|];
      }
    }

    /** serial_cb: `updated` and `ready` are what the UART answers, `fifo` what it holds. */
    method SerialCb(updated: bool, ready: bool, fifo: seq<byte>)
      requires Valid()
      modifies this, rxBuf
      ensures Valid() && taken == old(taken)
      ensures stream == if updated && ready then old(stream) + fifo else old(stream)
    {
      hide Subsequence, CString, CStrings, Kept, Open, Offered, SerialPort.BufferOk, SerialPort.QueueOk;
      if !updated {
        return;
      }
      if !ready {
        return;
      }
      for i := 0 to |fifo|
        invariant Valid() && taken == old(taken) && stream == old(stream) + fifo[..i]
      {
        Receive(fifo[i]);
        assert fifo[..i + 1] == fifo[..i] + [fifo[i]];
      }
      assert fifo[..|fifo|] == fifo;
    }

    /** The body of the callback's loop. */
    method Receive(c: byte)
      requires Valid()
      modifies this, rxBuf
      ensures Valid() && taken == old(taken) && stream == old(stream) + [c]
    {
      hide Subsequence, CString, CStrings, Kept, Open, Offered;
      ghost var open := Open(stream);
      StreamNext(stream, c);
      KeptNext(open, c);
      if (c == 10 || c == 13 || c == 0) && rxBufPos > 0 {
        EndLine(c);
      } else {
        assert Offered(stream) + [] == Offered(stream);
        if rxBufPos < rxBuf.Length - 1 && c != 10 && c != 13 && c != 0 {
          rxBuf[rxBufPos] := c;
          assert rxBuf[..rxBufPos + 1] == Kept(open) + [c];
          rxBufPos := (rxBufPos + 1) % 256;
        }
        stream := stream + [c];
      }
    }

    /** The end of a line that has left something in the buffer: the string is terminated and offered. */
    method EndLine(c: byte)
      requires Valid() && Terminator(c) && rxBufPos > 0
      modifies this, rxBuf
      ensures Valid() && taken == old(taken) && stream == old(stream) + [c]
    {
      hide Subsequence, CString, CStrings, Kept, Open, Offered;
      ghost var open := Open(stream);
      StreamNext(stream, c);
      OpenClean(stream);
      rxBuf[rxBufPos] := 0;
      assert rxBuf[..rxBufPos] == Kept(open);
      MessageIs(rxBuf[..], open);
      QueueNext(taken, uartMsgq, Offered(stream), rxBuf[..]);
      Put();
      rxBufPos := 0;
      stream := stream + [c];
    }

    /** k_msgq_get of a waiting reader. */
    method Get() returns (m: seq<byte>)
      requires Valid() && uartMsgq != []
      modifies this`uartMsgq, this`taken
      ensures Valid() && m == old(uartMsgq)[0] && uartMsgq == old(uartMsgq)[1..]
      ensures taken == old(taken) + [CString(m)]
    {
      m := uartMsgq[0];
      assert taken + CStrings(uartMsgq) == taken + [CString(m)] + CStrings(uartMsgq[1..]);
      uartMsgq := uartMsgq[1..];
      taken := taken + [CString(m)];
    }

    /** A message is dropped only when 20 are waiting. */
    lemma DroppedOnlyWhenFull()
      requires Valid()
      ensures |uartMsgq| <= 20 && forall d :: d in drops ==> d == 20
    {
    }

    /** As long as nothing was dropped, readers have got, or will find on the queue, exactly the strings
        offered. */
    lemma NothingDropped()
      requires Valid() && drops == []
      ensures taken + CStrings(uartMsgq) == Offered(stream)
    {
      CStringsAppend(uartMsgq, []);
      SubsequenceLength(taken + CStrings(uartMsgq), Offered(stream));
    }
  }
}

/**
 * The receive path of the DATA event: bytes from the serial-port profile are
 * assembled into lines in rx_buffer_, carriage returns are dropped, and each
 * line feed hands a non-empty buffer to handle_line_.
 */
module Framer {
  import opened Base
  import opened Types
  import opened RadioState
  import opened Notifications

  const CR: byte := 13
  const LF: byte := 10

  /** One received byte, as the loop over the DATA event's bytes handles it. */
  function FeedByte(s: State, b: byte): State
  {
    if b == CR then s
    else if b == LF then
      if s.rxBuffer == [] then s else State([], HandleLine(s.core, s.rxBuffer))
    else State(s.rxBuffer + [b as char], s.core)
  }

  /** The bytes of one DATA event (or several), in order. */
  function Feed(s: State, data: seq<byte>): State
  {
    if data == [] then s else FeedByte(Feed(s, data[..|data| - 1]), data[|data| - 1])
  }

  /** The characters a stretch of bytes adds to the buffer: every byte but CR. */
  function Kept(data: seq<byte>): (r: string)
    ensures |r| <= |data|
  {
    if data == [] then []
    else if data[|data| - 1] == CR then Kept(data[..|data| - 1])
    else Kept(data[..|data| - 1]) + [data[|data| - 1] as char]
  }

  /** Bytes read as characters one for one. */
  function Chars(data: seq<byte>): (r: string)
    ensures |r| == |data|
    ensures forall k :: 0 <= k < |data| ==> r[k] == data[k] as char
  {
    seq(|data|, k requires 0 <= k < |data| => data[k] as char)
  }

  predicate NoLineBreak(data: seq<byte>)
  {
    forall k :: 0 <= k < |data| ==> data[k] != CR && data[k] != LF
  }

  /**
   * Where an event's data is split does not matter: feeding two chunks one
   * after the other is feeding their concatenation.
   */
  lemma {:induction false} FeedAppend(s: State, a: seq<byte>, b: seq<byte>)
    ensures Feed(s, a + b) == Feed(Feed(s, a), b)
  {
    if b == [] {
      assert a + b == a;
    } else {
      var b' := b[..|b| - 1];
      assert (a + b)[..|a + b| - 1] == a + b';
      FeedAppend(s, a, b');
    }
  }

  /** A carriage return anywhere in the data has no effect. */
  lemma FeedIgnoresCR(s: State, a: seq<byte>, b: seq<byte>)
    ensures Feed(s, a + [CR] + b) == Feed(s, a + b)
  {
    FeedAppend(s, a + [CR], b);
    FeedAppend(s, a, [CR]);
    assert [CR][..0] == [];
    FeedAppend(s, a, b);
  }

  /** Data without a line feed only extends the buffer; nothing is handled yet. */
  lemma {:induction false} FeedPartial(s: State, data: seq<byte>)
    requires forall k :: 0 <= k < |data| ==> data[k] != LF
    ensures Feed(s, data) == State(s.rxBuffer + Kept(data), s.core)
  {
    if data == [] {
      assert s.rxBuffer + [] == s.rxBuffer;
    } else {
      FeedPartial(s, data[..|data| - 1]);
    }
  }

  /**
   * A line feed ends the line: the buffered text and the bytes before it
   * (less CRs) are handled as one line, and the buffer is left empty; an
   * empty line is dropped.
   */
  lemma FeedLine(s: State, data: seq<byte>)
    requires forall k :: 0 <= k < |data| ==> data[k] != LF
    ensures var text := s.rxBuffer + Kept(data);
      Feed(s, data + [LF]) == State([], if text == [] then s.core else HandleLine(s.core, text))
  {
    assert (data + [LF])[..|data|] == data;
    FeedPartial(s, data);
  }

  /** Without CR or LF every byte is kept. */
  lemma {:induction false} KeptPlain(data: seq<byte>)
    requires NoLineBreak(data)
    ensures Kept(data) == Chars(data)
  {
    if data != [] {
      KeptPlain(data[..|data| - 1]);
    }
  }

  /** The lines as the radio sends them: each followed by CR LF. */
  function Frame(lines: seq<seq<byte>>): seq<byte>
  {
    if lines == [] then [] else Frame(lines[..|lines| - 1]) + lines[|lines| - 1] + [CR, LF]
  }

  /** handle_line_ on each line in turn. */
  function HandleLines(c: Core, lines: seq<seq<byte>>): Core
  {
    if lines == [] then c else HandleLine(HandleLines(c, lines[..|lines| - 1]), Chars(lines[|lines| - 1]))
  }

  /** One non-empty CR LF terminated line fed from an empty buffer is handled once. */
  lemma FeedOneFrame(s: State, line: seq<byte>)
    requires s.rxBuffer == []
    requires line != [] && NoLineBreak(line)
    ensures Feed(s, line + [CR, LF]) == State([], HandleLine(s.core, Chars(line)))
  {
    var withCR := line + [CR];
    assert line + [CR, LF] == withCR + [LF];
    assert withCR[..|line|] == line;
    KeptPlain(line);
    assert Kept(withCR) == Chars(line);
    FeedLine(s, withCR);
    assert s.rxBuffer + Kept(withCR) == Chars(line);
  }

  /**
   * The round trip of the framer: CR LF terminated non-empty lines, fed
   * from an empty buffer, are each handled once, in order, and leave the
   * buffer empty.
   */
  lemma {:induction false} FeedFrames(c: Core, lines: seq<seq<byte>>)
    requires forall i :: 0 <= i < |lines| ==> lines[i] != [] && NoLineBreak(lines[i])
    ensures Feed(State([], c), Frame(lines)) == State([], HandleLines(c, lines))
  {
    if lines != [] {
      var init := lines[..|lines| - 1];
      var last := lines[|lines| - 1];
      FeedFrames(c, init);
      assert Frame(lines) == Frame(init) + (last + [CR, LF]);
      FeedAppend(State([], c), Frame(init), last + [CR, LF]);
      FeedOneFrame(State([], HandleLines(c, init)), last);
    }
  }

  /** Blank lines, with or without CR, are dropped without a trace. */
  lemma BlankLines(c: Core)
    ensures Feed(State([], c), [LF]) == State([], c)
    ensures Feed(State([], c), [CR, LF]) == State([], c)
  {
    assert [CR, LF][..1] == [CR];
    assert [CR][..0] == [];
    assert [LF][..0] == [];
  }
}

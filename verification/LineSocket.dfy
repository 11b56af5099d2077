/** What a byte stream means as newline-separated lines, however it is cut into chunks. */
module Framing {
  import opened Common

  const NEWLINE: byte := 10
  const RECV_CHUNK: nat := 4096

  /** `Line` goes on to be decoded; after `TooLarge` the stream cannot be salvaged. */
  datatype Outcome = Line(bytes: seq<byte>) | TooLarge | Closed | TimedOut

  predicate Blank(line: seq<byte>) {
    forall i :: 0 <= i < |line| ==> line[i] == 32 || 9 <= line[i] <= 13
  }

  /** The position of the first newline, or the length when there is none. */
  function FirstNewline(s: seq<byte>): (i: nat)
    ensures i <= |s| && (forall j :: 0 <= j < i ==> s[j] != NEWLINE) && (i < |s| ==> s[i] == NEWLINE)
  {
    if s == [] || s[0] == NEWLINE then 0 else 1 + FirstNewline(s[1..])
  }

  /**
   The results a reader gets from a whole stream, up to the end or the first line that is too long: blank lines
   are skipped, and a remainder without a newline counts as a line.
  */
  function Results(s: seq<byte>, limit: nat): seq<Outcome>
    decreases |s|
  {
    var i := FirstNewline(s);
    if i > limit then [TooLarge]
    else if i == |s| then (if s == [] then [Closed] else [Line(s), Closed])
    else if Blank(s[..i]) then Results(s[i + 1..], limit)
    else [Line(s[..i])] + Results(s[i + 1..], limit)
  }

  lemma FirstNewlineIs(s: seq<byte>, i: nat)
    requires i <= |s| && (forall j :: 0 <= j < i ==> s[j] != NEWLINE) && (i < |s| ==> s[i] == NEWLINE)
    ensures FirstNewline(s) == i
  {
  }

  lemma FirstLineIs(buffer: seq<byte>, rest: seq<byte>, i: nat)
    requires i == FirstNewline(buffer) < |buffer|
    ensures FirstNewline(buffer + rest) == i
    ensures (buffer + rest)[..i] == buffer[..i] && (buffer + rest)[i + 1..] == buffer[i + 1..] + rest
  {
    FirstNewlineIs(buffer + rest, i);
  }

  /** A newline in hand decides the first line, whatever follows. */
  lemma LineInHand(buffer: seq<byte>, rest: seq<byte>, i: nat, limit: nat)
    requires i == FirstNewline(buffer) < |buffer|
    ensures Results(buffer + rest, limit)
         == if i > limit then [TooLarge]
            else if Blank(buffer[..i]) then Results(buffer[i + 1..] + rest, limit)
            else [Line(buffer[..i])] + Results(buffer[i + 1..] + rest, limit)
  {
    FirstLineIs(buffer, rest, i);
    assert |buffer + rest| > i;
  }

  /** Without one, the first line is at least as long as what is in hand. */
  lemma NoLineInHand(buffer: seq<byte>, rest: seq<byte>, limit: nat)
    requires FirstNewline(buffer) == |buffer|
    ensures |buffer| > limit ==> Results(buffer + rest, limit) == [TooLarge]
    ensures |buffer| <= limit && rest == []
            ==> Results(buffer + rest, limit) == if buffer == [] then [Closed] else [Line(buffer), Closed]
  {
    assert forall i :: 0 <= i < |buffer| ==> (buffer + rest)[i] == buffer[i];
    assert rest == [] ==> buffer + rest == buffer;
  }

  /** Packets written one per line, each with its newline. */
  function Encoded(lines: seq<seq<byte>>): seq<byte> {
    if lines == [] then [] else lines[0] + [NEWLINE] + Encoded(lines[1..])
  }

  function AsResults(lines: seq<seq<byte>>): seq<Outcome> {
    if lines == [] then [Closed] else [Line(lines[0])] + AsResults(lines[1..])
  }

  /** What was written line by line is read line by line. */
  lemma {:induction false} ReadBack(lines: seq<seq<byte>>, limit: nat)
    requires forall i :: 0 <= i < |lines| ==> FirstNewline(lines[i]) == |lines[i]| <= limit && !Blank(lines[i])
    ensures Results(Encoded(lines), limit) == AsResults(lines)
  {
    if lines == [] {
    } else {
      ReadBack(lines[1..], limit);
      var s := Encoded(lines);
      FirstNewlineIs(s, |lines[0]|);
      assert s[..|lines[0]|] == lines[0];
      assert s[|lines[0]| + 1..] == Encoded(lines[1..]);
    }
  }

  /** Blank is white space only: one other character makes a line. */
  lemma BlankExactly(line: seq<byte>)
    ensures Blank(line) <==> forall i :: 0 <= i < |line| ==> line[i] in {9, 10, 11, 12, 13, 32}
  {
  }

  predicate IsLine(line: seq<byte>, limit: nat) {
    FirstNewline(line) == |line| <= limit
  }

  /** The results of complete lines that fit: all but the blank ones. */
  function LineResults(lines: seq<seq<byte>>): seq<Outcome> {
    if lines == [] then []
    else if Blank(lines[0]) then LineResults(lines[1..])
    else [Line(lines[0])] + LineResults(lines[1..])
  }

  lemma FirstOfMany(line: seq<byte>, more: seq<byte>, limit: nat)
    requires IsLine(line, limit)
    ensures Results(line + [NEWLINE] + more, limit)
         == if Blank(line) then Results(more, limit) else [Line(line)] + Results(more, limit)
  {
    var s := line + [NEWLINE] + more;
    FirstNewlineIs(s, |line|);
    assert s[..|line|] == line && s[|line| + 1..] == more;
  }

  /** Complete lines that fit come first, whatever follows them. */
  lemma {:induction false} LinesComeFirst(lines: seq<seq<byte>>, more: seq<byte>, limit: nat)
    requires forall i :: 0 <= i < |lines| ==> IsLine(lines[i], limit)
    ensures Results(Encoded(lines) + more, limit) == LineResults(lines) + Results(more, limit)
  {
    if lines == [] {
      assert [] + more == more;
      assert [] + Results(more, limit) == Results(more, limit);
    } else {
      LinesComeFirst(lines[1..], more, limit);
      FirstOfMany(lines[0], Encoded(lines[1..]) + more, limit);
      assert Encoded(lines) + more == lines[0] + [NEWLINE] + (Encoded(lines[1..]) + more);
      assert [Line(lines[0])] + (LineResults(lines[1..]) + Results(more, limit))
          == [Line(lines[0])] + LineResults(lines[1..]) + Results(more, limit);
    }
  }

  /** Every stream is complete lines and a rest: what the rest without a newline gives at the end. */
  lemma RestOfStream(rest: seq<byte>, limit: nat)
    requires FirstNewline(rest) == |rest|
    ensures Results(rest, limit)
         == if |rest| > limit then [TooLarge] else if rest == [] then [Closed] else [Line(rest), Closed]
  {
  }

  /** And a line too long, complete or not, ends the results. */
  lemma TooLongEnds(s: seq<byte>, limit: nat)
    requires |s| > limit && forall i :: 0 <= i <= limit ==> s[i] != NEWLINE
    ensures Results(s, limit) == [TooLarge]
  {
  }

  /** What the socket does at each read: some bytes, or a timeout. When nothing is left it reports the end. */
  datatype Event = Data(chunk: seq<byte>) | Timeout

  function Bytes(events: seq<Event>): seq<byte> {
    if events == [] then []
    else (if events[0].Data? then events[0].chunk else []) + Bytes(events[1..])
  }

  predicate Readable(events: seq<Event>) {
    forall i :: 0 <= i < |events| && events[i].Data? ==> 0 < |events[i].chunk| <= RECV_CHUNK
  }
}

/** The line reader: a buffer kept across calls, cut at newlines. */
module LineSockets {
  import opened Common
  import opened Framing

  class LineSocket {
    const maxLineBytes: nat
    var buffer: seq<byte>
    /** What the socket has yet to deliver. */
    var incoming: seq<Event>

    /** Memory is bounded for every stream. */
    ghost predicate Valid()
      reads this
    {
      Readable(incoming) && |buffer| <= maxLineBytes + RECV_CHUNK
    }

    ghost function Pending(): seq<byte>
      reads this
    {
      buffer + Bytes(incoming)
    }

    constructor (incoming: seq<Event>, maxLineBytes: nat)
      requires Readable(incoming)
      ensures Valid() && Pending() == Bytes(incoming) && this.maxLineBytes == maxLineBytes && this.incoming == incoming
    {
      this.incoming, this.maxLineBytes, buffer := incoming, maxLineBytes, [];
      new;
      assert [] + Bytes(incoming) == Bytes(incoming);
    }

    /** The next result of the stream; a timeout changes nothing about what is still to come. */
    method RecvPacket() returns (r: Outcome)
      requires Valid()
      modifies this
      ensures Valid()
      ensures Results(old(Pending()), maxLineBytes)
           == match r
              case TimedOut => Results(Pending(), maxLineBytes)
              case Line(_) => [r] + Results(Pending(), maxLineBytes)
              case _ => [r]
      ensures r.TimedOut? || r.Line? ==> |incoming| + |Pending()| < |old(incoming)| + |old(Pending())|
    {
      while true
        invariant Valid()
        invariant Results(old(Pending()), maxLineBytes) == Results(Pending(), maxLineBytes)
        invariant |incoming| + |Pending()| <= |old(incoming)| + |old(Pending())|
        decreases |Pending()|, |incoming|
      {
        var i := FirstNewline(buffer);
        if i == |buffer| {
          NoLineInHand(buffer, Bytes(incoming), maxLineBytes);
          if |buffer| > maxLineBytes {
            buffer := [];
            return TooLarge;
          }
          if incoming == [] {
            assert Pending() == buffer;
            if buffer != [] {
              var line := buffer;
              buffer := [];
              assert Pending() == [];
              return Line(line);
            }
            return Closed;
          }
          var event := incoming[0];
          ghost var before := Pending();
          incoming := incoming[1..];
          if event.Timeout? {
            assert Pending() == before;
            return TimedOut;
          }
          buffer := buffer + event.chunk;
          assert Pending() == before;
        } else {
          LineInHand(buffer, Bytes(incoming), i, maxLineBytes);
          var line := buffer[..i];
          buffer := buffer[i + 1..];
          if |line| > maxLineBytes {
            return TooLarge;
          }
          if !Blank(line) {
            return Line(line);
          }
        }
      }
    }

    /** The reading loop of either side: until the end, or until a line is too long. */
    method ReadAll() returns (results: seq<Outcome>)
      requires Valid()
      modifies this
      ensures Valid()
      ensures results == Results(old(Pending()), maxLineBytes)
    {
      results := [];
      while true
        invariant Valid()
        invariant Results(old(Pending()), maxLineBytes) == results + Results(Pending(), maxLineBytes)
        decreases |incoming| + |Pending()|
      {
        var r := RecvPacket();
        if r.TooLarge? || r.Closed? {
          return results + [r];
        }
        if r.Line? {
          results := results + [r];
        }
      }
    }
  }

  /** Two ways of cutting one stream, with timeouts anywhere, give the same results. */
  method ReadTwice(one: seq<Event>, other: seq<Event>, maxLineBytes: nat)
    returns (first: seq<Outcome>, second: seq<Outcome>)
    requires Readable(one) && Readable(other) && Bytes(one) == Bytes(other)
    ensures first == second == Results(Bytes(one), maxLineBytes)
  {
    var a := new LineSocket(one, maxLineBytes);
    first := a.ReadAll();
    var b := new LineSocket(other, maxLineBytes);
    second := b.ReadAll();
  }
}

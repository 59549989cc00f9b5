/** Newline-delimited frames over a byte stream that arrives in arbitrary chunks, as both ends of the
    room relay read it. */
module Framing {
  const MAX_BUFFER: nat := 32_768

  /** The UTF-8 length of a character. */
  function Utf8Size(c: char): nat {
    if c < '\U{80}' then 1 else if c < '\U{800}' then 2 else if c < '\U{10000}' then 3 else 4
  }

  function ByteLength(text: string): nat {
    if text == "" then 0 else ByteLength(text[..|text| - 1]) + Utf8Size(text[|text| - 1])
  }

  // ---- The meaning of a stream, character by character ----

  /** What follows the last newline. */
  function Remainder(text: string): string {
    if text == "" then "" else
      var c := text[|text| - 1];
      if c == '\n' then "" else Remainder(text[..|text| - 1]) + [c]
  }

  /** The non-empty pieces that a newline ends. */
  function Frames(text: string): seq<string> {
    if text == "" then [] else
      var before := text[..|text| - 1];
      if text[|text| - 1] == '\n' && Remainder(before) != "" then Frames(before) + [Remainder(before)]
      else Frames(before)
  }

  lemma {:induction false} PiecesAreClean(text: string)
    ensures '\n' !in Remainder(text)
    ensures forall f <- Frames(text) :: f != "" && '\n' !in f
  {
    if text != "" { PiecesAreClean(text[..|text| - 1]); }
  }

  /** Reading may stop anywhere: only the remainder matters for what comes next. */
  lemma {:induction false} ReadingResumes(a: string, b: string)
    ensures Frames(a + b) == Frames(a) + Frames(Remainder(a) + b)
    ensures Remainder(a + b) == Remainder(Remainder(a) + b)
  {
    if b == "" {
      PiecesAreClean(a);
      WithoutNewline(Remainder(a));
      assert a + b == a && Remainder(a) + b == Remainder(a);
    } else {
      var init, c := b[..|b| - 1], b[|b| - 1];
      ReadingResumes(a, init);
      assert (a + b)[..|a + b| - 1] == a + init;
      assert (Remainder(a) + b)[..|Remainder(a) + b| - 1] == Remainder(a) + init;
    }
  }

  lemma {:induction false} WithoutNewline(text: string)
    requires '\n' !in text
    ensures Frames(text) == [] && Remainder(text) == text
  {
    if text != "" { WithoutNewline(text[..|text| - 1]); }
  }

  lemma OneLine(line: string)
    requires '\n' !in line
    ensures Frames(line + "\n") == (if line == "" then [] else [line]) && Remainder(line + "\n") == ""
  {
    WithoutNewline(line);
    assert (line + "\n")[..|line|] == line;
  }

  /** A line, then the rest of the stream. */
  lemma LineThenRest(line: string, rest: string)
    requires '\n' !in line
    ensures Frames(line + "\n" + rest) == (if line == "" then [] else [line]) + Frames(rest)
    ensures Remainder(line + "\n" + rest) == Remainder(rest)
  {
    hide Frames;
    hide Remainder;
    OneLine(line);
    ReadingResumes(line + "\n", rest);
    assert "" + rest == rest;
  }

  /** One step of the reading loop: cut at the first newline. */
  lemma FirstFrame(text: string, n: nat)
    requires n < |text| && text[n] == '\n' && '\n' !in text[..n]
    ensures Frames(text) == (if n == 0 then [] else [text[..n]]) + Frames(text[n + 1..])
    ensures Remainder(text) == Remainder(text[n + 1..])
  {
    hide Frames;
    hide Remainder;
    LineThenRest(text[..n], text[n + 1..]);
    assert text[..n] + "\n" + text[n + 1..] == text;
  }

  /** What a sender writes: each message followed by a newline. */
  function Written(messages: seq<string>): string {
    if messages == [] then "" else Written(messages[..|messages| - 1]) + messages[|messages| - 1] + "\n"
  }

  /** Round trip: reading recovers exactly the messages and the unfinished rest. */
  lemma {:induction false} ReadingInvertsWriting(messages: seq<string>, rest: string)
    requires '\n' !in rest && forall m <- messages :: m != "" && '\n' !in m
    ensures Frames(Written(messages) + rest) == messages && Remainder(Written(messages) + rest) == rest
  {
    hide Frames;
    hide Remainder;
    hide Written;
    WithoutNewline(rest);
    if messages == [] {
      EmptyWritten(rest);
    } else {
      var init, last := messages[..|messages| - 1], messages[|messages| - 1];
      assert last in messages && forall m <- init :: m in messages;
      ReadingInvertsWriting(init, "");
      assert Written(init) + "" == Written(init);
      LineThenRest(last, rest);
      ReadingResumes(Written(init), last + "\n" + rest);
      assert "" + (last + "\n" + rest) == last + "\n" + rest;
      WrittenSplits(messages, rest);
    }
  }

  lemma EmptyWritten(rest: string)
    ensures Written([]) + rest == rest
  {}

  lemma WrittenSplits(messages: seq<string>, rest: string)
    requires messages != []
    ensures Written(messages) + rest == Written(messages[..|messages| - 1]) + (messages[|messages| - 1] + "\n" + rest)
  {
    var init, last := Written(messages[..|messages| - 1]), messages[|messages| - 1];
    assert Written(messages) == init + last + "\n";
    hide Written;
    Associative(init, last, "\n");
    Associative(init, last + "\n", rest);
  }

  lemma Associative(a: string, b: string, c: string)
    ensures a + b + c == a + (b + c)
  {}

  // ---- Chunks ----

  /** What one end of a connection has read so far. */
  datatype Reading = Reading(frames: seq<string>, buffer: string, destroyed: bool)

  const NOTHING_READ := Reading([], "", false)

  /** One chunk. A buffer over the limit ends the connection before anything in it is read. */
  function Read(r: Reading, chunk: string): Reading {
    if r.destroyed then r
    else if ByteLength(r.buffer + chunk) > MAX_BUFFER then r.(destroyed := true)
    else Reading(r.frames + Frames(r.buffer + chunk), Remainder(r.buffer + chunk), false)
  }

  function ReadAll(chunks: seq<string>): Reading {
    if chunks == [] then NOTHING_READ else Read(ReadAll(chunks[..|chunks| - 1]), chunks[|chunks| - 1])
  }

  function Joined(chunks: seq<string>): string {
    if chunks == [] then "" else Joined(chunks[..|chunks| - 1]) + chunks[|chunks| - 1]
  }

  /** Unless a buffer exceeds the limit, what is read is a function of the stream alone. */
  lemma {:induction false} ReadingIsOfTheStream(chunks: seq<string>)
    requires !ReadAll(chunks).destroyed
    ensures ReadAll(chunks) == Reading(Frames(Joined(chunks)), Remainder(Joined(chunks)), false)
  {
    if chunks != [] {
      var init := chunks[..|chunks| - 1];
      ReadingIsOfTheStream(init);
      ReadingResumes(Joined(init), chunks[|chunks| - 1]);
    }
  }

  /** Any two splits of one stream that stay within the limit read the same. */
  lemma ChunkingDoesNotMatter(a: seq<string>, b: seq<string>)
    requires Joined(a) == Joined(b) && !ReadAll(a).destroyed && !ReadAll(b).destroyed
    ensures ReadAll(a) == ReadAll(b)
  {
    ReadingIsOfTheStream(a);
    ReadingIsOfTheStream(b);
  }

  /** However they are split, the messages of a sender arrive whole, in order, and once. */
  lemma MessagesArrive(messages: seq<string>, chunks: seq<string>)
    requires forall m <- messages :: m != "" && '\n' !in m
    requires Joined(chunks) == Written(messages) && !ReadAll(chunks).destroyed
    ensures ReadAll(chunks) == Reading(messages, "", false)
  {
    ReadingIsOfTheStream(chunks);
    ReadingInvertsWriting(messages, "");
    assert Written(messages) + "" == Written(messages);
  }

  /** Until the limit is hit, what has been read is a prefix of what the stream says. */
  lemma {:induction false} NothingIsInvented(chunks: seq<string>)
    ensures ReadAll(chunks).frames <= Frames(Joined(chunks))
  {
    if !ReadAll(chunks).destroyed {
      ReadingIsOfTheStream(chunks);
    } else {
      var init := chunks[..|chunks| - 1];
      NothingIsInvented(init);
      ReadingResumes(Joined(init), chunks[|chunks| - 1]);
    }
  }

  // ---- When the limit is hit ----

  /** The stream taken one character at a time. */
  function Singly(text: string): seq<string> {
    seq(|text|, i requires 0 <= i < |text| => [text[i]])
  }

  lemma {:induction false} SinglyJoins(text: string)
    ensures Joined(Singly(text)) == text
  {
    if text != "" {
      var init := text[..|text| - 1];
      SinglyJoins(init);
      assert Singly(text)[..|text| - 1] == Singly(init);
    }
  }

  /** Every unfinished line of the stream, with the character that follows it, fits the buffer. */
  predicate LinesFit(text: string) {
    forall k :: 0 <= k < |text| ==> ByteLength(Remainder(text[..k]) + [text[k]]) <= MAX_BUFFER
  }

  /** Read singly, the stream survives exactly when its lines fit. */
  lemma {:induction false} SinglySurvivesIffLinesFit(text: string)
    ensures !ReadAll(Singly(text)).destroyed <==> LinesFit(text)
  {
    hide ByteLength;
    hide Remainder;
    hide Frames;
    if text != "" {
      var init := text[..|text| - 1];
      SinglySurvivesIffLinesFit(init);
      assert Singly(text)[..|text| - 1] == Singly(init);
      assert LinesFit(text) <==> LinesFit(init) && ByteLength(Remainder(init) + [text[|text| - 1]]) <= MAX_BUFFER by {
        assert forall k :: 0 <= k < |init| ==> text[..k] == init[..k];
      }
      if !ReadAll(Singly(init)).destroyed {
        ReadingIsOfTheStream(Singly(init));
        SinglyJoins(init);
      }
    }
  }

  lemma {:induction false} LengthAdds(a: string, b: string)
    ensures ByteLength(a + b) == ByteLength(a) + ByteLength(b)
  {
    if b == "" {
      assert a + b == a;
    } else {
      assert (a + b)[..|a + b| - 1] == a + b[..|b| - 1];
      LengthAdds(a, b[..|b| - 1]);
    }
  }

  lemma {:induction false} RemainderIsShort(a: string, b: string)
    ensures ByteLength(Remainder(a + b)) <= ByteLength(Remainder(a)) + ByteLength(b)
  {
    if b == "" {
      assert a + b == a;
    } else {
      assert (a + b)[..|a + b| - 1] == a + b[..|b| - 1];
      RemainderIsShort(a, b[..|b| - 1]);
      if b[|b| - 1] != '\n' { LengthAdds(Remainder(a + b[..|b| - 1]), [b[|b| - 1]]); }
    }
  }

  /** A line within a chunk is no longer than the buffer the chunk is read from. */
  lemma LinesFitTheirBuffer(before: string, chunk: string, k: nat)
    requires k < |chunk|
    ensures ByteLength(Remainder(before + chunk[..k]) + [chunk[k]]) <= ByteLength(Remainder(before) + chunk)
  {
    hide ByteLength;
    hide Remainder;
    assert chunk == chunk[..k] + [chunk[k]] + chunk[k + 1..];
    RemainderIsShort(before, chunk[..k]);
    LengthAdds(Remainder(before + chunk[..k]), [chunk[k]]);
    LengthAdds(chunk[..k], [chunk[k]]);
    LengthAdds(chunk[..k] + [chunk[k]], chunk[k + 1..]);
    LengthAdds(Remainder(before), chunk);
  }

  /** The finest split is the most lenient: a stream that survives any split has lines that fit. */
  lemma {:induction false} SurvivorsHaveShortLines(chunks: seq<string>)
    requires !ReadAll(chunks).destroyed
    ensures LinesFit(Joined(chunks))
  {
    hide ByteLength;
    hide Remainder;
    hide Frames;
    if chunks != [] {
      var init, chunk := chunks[..|chunks| - 1], chunks[|chunks| - 1];
      SurvivorsHaveShortLines(init);
      ReadingIsOfTheStream(init);
      var before, text := Joined(init), Joined(chunks);
      forall k | 0 <= k < |text| ensures ByteLength(Remainder(text[..k]) + [text[k]]) <= MAX_BUFFER {
        if k < |before| {
          assert text[..k] == before[..k] && text[k] == before[k];
        } else {
          assert text[..k] == before + chunk[..k - |before|] && text[k] == chunk[k - |before|];
          LinesFitTheirBuffer(before, chunk, k - |before|);
        }
      }
    }
  }

  // ---- Bytes ----

  /** The bytes of a character, as section 3 of RFC 3629 lays them out. */
  function Utf8(c: char): seq<int> {
    var n := c as int;
    if n < 0x80 then [n]
    else if n < 0x800 then [0xC0 + n / 64, 0x80 + n % 64]
    else if n < 0x10000 then [0xE0 + n / 4096, 0x80 + n / 64 % 64, 0x80 + n % 64]
    else [0xF0 + n / 262144, 0x80 + n / 4096 % 64, 0x80 + n / 64 % 64, 0x80 + n % 64]
  }

  function Encode(text: string): seq<int> {
    if text == "" then [] else Utf8(text[0]) + Encode(text[1..])
  }

  /** The first byte says how many belong to the character. */
  function Width(lead: int): nat {
    if lead < 0x80 then 1 else if lead < 0xE0 then 2 else if lead < 0xF0 then 3 else 4
  }

  /** The number of the character that these bytes spell. */
  function Code(bytes: seq<int>): int
    requires bytes != [] && |bytes| == Width(bytes[0])
  {
    var lead := bytes[0];
    match |bytes|
    case 1 => lead
    case 2 => (lead - 0xC0) * 64 + (bytes[1] - 0x80)
    case 3 => (lead - 0xE0) * 4096 + (bytes[1] - 0x80) * 64 + (bytes[2] - 0x80)
    case _ => (lead - 0xF0) * 262144 + (bytes[1] - 0x80) * 4096 + (bytes[2] - 0x80) * 64 + (bytes[3] - 0x80)
  }

  /** The characters that bytes spell, by number, up to an unfinished one. */
  function Decode(bytes: seq<int>): seq<int> {
    if bytes == [] || |bytes| < Width(bytes[0]) then []
    else [Code(bytes[..Width(bytes[0])])] + Decode(bytes[Width(bytes[0])..])
  }

  lemma Digits(n: nat)
    ensures n == n / 64 * 64 + n % 64
    ensures n / 64 == n / 4096 * 64 + n / 64 % 64
    ensures n / 4096 == n / 262144 * 64 + n / 4096 % 64
  {}

  lemma CharacterDecodes(c: char)
    ensures |Utf8(c)| == Utf8Size(c) && forall i :: 0 <= i < |Utf8(c)| ==> 0 <= Utf8(c)[i] < 256
    ensures Utf8(c) != [] && Width(Utf8(c)[0]) == |Utf8(c)| && Code(Utf8(c)) == c as int
  {
    var n := c as int;
    Digits(n);
    assert n < 0x11_0000;
    if n < 0x80 {
    } else if n < 0x800 {
      assert Utf8(c) == [0xC0 + n / 64, 0x80 + n % 64];
    } else if n < 0x10000 {
      assert Utf8(c) == [0xE0 + n / 4096, 0x80 + n / 64 % 64, 0x80 + n % 64];
    } else {
      assert Utf8(c) == [0xF0 + n / 262144, 0x80 + n / 4096 % 64, 0x80 + n / 64 % 64, 0x80 + n % 64];
    }
  }

  /** The length is that of an encoding that loses nothing. */
  lemma {:induction false} LengthIsThatOfTheBytes(text: string)
    ensures |Encode(text)| == ByteLength(text)
    ensures forall i :: 0 <= i < |Encode(text)| ==> 0 <= Encode(text)[i] < 256
    ensures Decode(Encode(text)) == seq(|text|, i requires 0 <= i < |text| => text[i] as int)
  {
    if text != "" {
      hide Utf8;
      hide Code;
      var first, rest := text[0], text[1..];
      CharacterDecodes(first);
      LengthIsThatOfTheBytes(rest);
      LengthAdds([first], rest);
      assert [first] + rest == text;
      OneCharacter(first);
      var bytes := Encode(text);
      assert bytes[..Utf8Size(first)] == Utf8(first) && bytes[Utf8Size(first)..] == Encode(rest);
    }
  }

  lemma OneCharacter(c: char)
    ensures ByteLength([c]) == Utf8Size(c)
  {
    assert [c][..0] == "";
  }

  // ---- The reading loop ----

  method IndexOfNewline(text: string) returns (n: int)
    ensures -1 <= n < |text|
    ensures n < 0 <==> '\n' !in text
    ensures 0 <= n ==> text[n] == '\n' && '\n' !in text[..n]
  {
    n := 0;
    while n < |text|
      invariant n <= |text| && '\n' !in text[..n]
    {
      if text[n] == '\n' { return; }
      n := n + 1;
    }
    n := -1;
  }

  /** One end of a connection. `delivered` are the frames handed to the parser. */
  class Connection {
    var buffer: string
    var delivered: seq<string>
    var destroyed: bool

    function State(): Reading
      reads this
    {
      Reading(delivered, buffer, destroyed)
    }

    constructor ()
      ensures State() == NOTHING_READ
    {
      buffer, delivered, destroyed := "", [], false;
    }

    method AcceptChunk(chunk: string)
      modifies this
      ensures State() == Read(old(State()), chunk)
    {
      if destroyed { return; }
      var text := buffer + chunk;
      if ByteLength(text) > MAX_BUFFER {
        destroyed := true;
        return;
      }
      var rest := text;
      while true
        invariant delivered + Frames(rest) == old(delivered) + Frames(text)
        invariant Remainder(rest) == Remainder(text)
        invariant !destroyed
        decreases |rest|
      {
        var newline := IndexOfNewline(rest);
        if newline < 0 { break; }
        FirstFrame(rest, newline);
        var frame := rest[..newline];
        rest := rest[newline + 1..];
        if |frame| == 0 { continue; }
        delivered := delivered + [frame];
      }
      WithoutNewline(rest);
      buffer := rest;
    }

    /** A whole stream, however it is split: within the limit exactly its frames are delivered, and never
        anything else. */
    method AcceptAll(chunks: seq<string>)
      requires State() == NOTHING_READ
      modifies this
      ensures State() == ReadAll(chunks)
      ensures delivered <= Frames(Joined(chunks))
      ensures !destroyed ==> delivered == Frames(Joined(chunks)) && buffer == Remainder(Joined(chunks))
    {
      assert chunks[..0] == [];
      for k := 0 to |chunks|
        invariant State() == ReadAll(chunks[..k])
      {
        AcceptChunk(chunks[k]);
        assert chunks[..k + 1][..k] == chunks[..k];
      }
      assert chunks[..|chunks|] == chunks;
      NothingIsInvented(chunks);
      if !destroyed { ReadingIsOfTheStream(chunks); }
    }
  }
}

/** Lines over a byte stream: cutting a stream into the chunks the reader takes,
    and the round trip from commands to bytes and back. */
module Streams {
  import opened Common
  import opened Protocol
  import opened LineIO

  /** What one read takes from a byte stream: through the first newline, but at
      most room bytes. */
  function Chunk(s: string, room: nat): (c: string)
    ensures c <= s && |c| <= room
  {
    var i := IndexOf(s, '\n');
    if i < room && i < |s| then s[..i + 1]
    else if room < |s| then s[..room]
    else s
  }

  function Chunks(s: string, room: nat): seq<string>
    requires room > 0
    decreases |s|
  {
    if s == "" then [] else [Chunk(s, room)] + Chunks(s[|Chunk(s, room)|..], room)
  }

  function Flat(parts: seq<string>): string {
    if parts == [] then "" else parts[0] + Flat(parts[1..])
  }

  /** The bytes among the kernel's answers; interruptions carry none. */
  function Bytes(a: seq<Arrival>): string {
    if a == [] then ""
    else match a[0]
      case Byte(c) => [c] + Bytes(a[1..])
      case _ => Bytes(a[1..])
  }

  lemma ChunkStep(c: char, s: string, room: nat)
    requires c != '\n'
    ensures Chunk([c] + s, room + 1) == [c] + Chunk(s, room)
  {
    var t := [c] + s;
    assert t[1..] == s;
    assert IndexOf(t, '\n') == 1 + IndexOf(s, '\n');
  }

  lemma ChunkEnds(s: string, room: nat)
    ensures Chunk(s, 0) == "" == Chunk("", room)
    ensures s != "" && s[0] == '\n' && room > 0 ==> Chunk(s, room) == "\n"
  {
  }

  /** Whatever interruptions happen, a read over a connection without errors takes
      the first chunk of the byte stream, leaves the rest of the stream, and reports
      end of file only when the stream ran out within an unfinished line. */
  lemma {:induction false} TakeLineIsChunk(a: seq<Arrival>, room: nat)
    requires RecvFailed !in a
    ensures var t := TakeLine(a, room);
            && t.raw == Chunk(Bytes(a), room)
            && Bytes(t.rest) == Bytes(a)[|t.raw|..]
            && RecvFailed !in t.rest
            && t.how != Broken
            && (t.how == EndOfFile <==> |t.raw| < room && (t.raw == "" || t.raw[|t.raw| - 1] != '\n'))
            && (t.how == EndOfFile ==> t.rest == [])
    decreases |a|
  {
    hide Chunk;
    ChunkEnds(Bytes(a), room);
    if room > 0 && a != [] {
      match a[0]
      case Byte(c) =>
        assert Bytes(a)[1..] == Bytes(a[1..]);
        if c != '\n' {
          TakeLineIsChunk(a[1..], room - 1);
          ChunkStep(c, Bytes(a[1..]), room - 1);
        }
      case RecvInterrupted =>
        TakeLineIsChunk(a[1..], room);
      case RecvFailed =>
    }
  }

  lemma {:induction false} TakeLineShrinks(a: seq<Arrival>, room: nat)
    requires room > 0 && a != []
    ensures |TakeLine(a, room).rest| < |a|
    decreases |a|
  {
    if a[0].Byte? && a[0].c != '\n' && room > 1 && |a| > 1 {
      TakeLineShrinks(a[1..], room - 1);
    } else if a[0].RecvInterrupted? && |a| > 1 {
      TakeLineShrinks(a[1..], room);
    }
  }

  /** The raw lines that repeated reads take until end of file. */
  function ReadAll(a: seq<Arrival>, room: nat): seq<string>
    requires room > 0
    decreases |a|
  {
    var t := TakeLine(a, room);
    if t.how != Line || a == [] then []
    else
      TakeLineShrinks(a, room);
      [t.raw] + ReadAll(t.rest, room)
  }

  predicate Terminated(s: string) {
    s == "" || s[|s| - 1] == '\n'
  }

  lemma ChunkOfTerminated(s: string, room: nat)
    requires room > 0 && Terminated(s) && s != ""
    ensures var c := Chunk(s, room);
            0 < |c| && Terminated(s[|c|..]) && (|c| == room || c[|c| - 1] == '\n')
  {
    IndexOfAbsent(s, '\n');
  }

  /** Reading a newline-terminated stream yields exactly its chunks. */
  lemma {:induction false} ReadAllIsChunks(a: seq<Arrival>, room: nat)
    requires room > 0 && RecvFailed !in a && Terminated(Bytes(a))
    ensures ReadAll(a, room) == Chunks(Bytes(a), room)
    decreases |a|
  {
    hide Chunk, TakeLine, Terminated;
    TakeLineIsChunk(a, room);
    var t := TakeLine(a, room);
    if Bytes(a) != "" {
      TakeLineShrinks(a, room);
      ChunkOfTerminated(Bytes(a), room);
      ReadAllIsChunks(t.rest, room);
    }
  }

  /** The chunks are a partition of the stream; each fits the buffer, and a newline
      occurs in one only as its last byte. */
  lemma {:induction false} ChunksPartition(s: string, room: nat)
    requires room > 0
    ensures Flat(Chunks(s, room)) == s
    ensures forall i :: 0 <= i < |Chunks(s, room)| ==>
                          var c := Chunks(s, room)[i]; 0 < |c| <= room && '\n' !in c[..|c| - 1]
    decreases |s|
  {
    if s != "" {
      var c := Chunk(s, room);
      var i := IndexOf(s, '\n');
      assert s == c + s[|c|..];
      assert c[..|c| - 1] <= s[..i];
      ChunksPartition(s[|c|..], room);
      assert Chunks(s, room)[1..] == Chunks(s[|c|..], room);
    }
  }

  /** A command a client can send as one line: its text holds no newline and no
      terminator, and does not end in a carriage return, which trimming would drop. */
  predicate Sendable(c: Command) {
    WellFormed(c) && '\n' !in CommandText(c) && '\0' !in CommandText(c) && IsTrim(CommandText(c))
  }

  function Wire(cs: seq<Command>): string {
    if cs == [] then "" else CommandLine(cs[0]) + Wire(cs[1..])
  }

  /** How the server turns one chunk into a command. */
  function Understood(chunk: string): Option<Command> {
    ParseClient(Trimmed(CString(chunk)))
  }

  lemma SendableFits(c: Command)
    requires Sendable(c)
    ensures '\n' !in CommandText(c) && |CommandText(c)| < MAX_LINE_LEN - 1
  {
    KeyOfName(KeyFor(c));
  }

  lemma ChunkOfLine(text: string, rest: string, room: nat)
    requires '\n' !in text && |text| < room
    ensures Chunk(text + "\n" + rest, room) == text + "\n"
    ensures (text + "\n" + rest)[|text + "\n"|..] == rest
    ensures Terminated(rest) ==> Terminated(text + "\n" + rest)
  {
    IndexOfSplit(text, '\n', rest);
    var s := text + "\n" + rest;
    assert s == text + ['\n'] + rest;
    assert s[..|text| + 1] == text + "\n";
    assert rest != "" ==> s[|s| - 1] == rest[|rest| - 1];
  }

  function LinesOf(cs: seq<Command>): seq<string> {
    seq(|cs|, i requires 0 <= i < |cs| => CommandLine(cs[i]))
  }

  lemma {:induction false} WireChunks(cs: seq<Command>)
    requires forall c :: c in cs ==> Sendable(c)
    ensures Chunks(Wire(cs), MAX_LINE_LEN - 1) == LinesOf(cs) && Terminated(Wire(cs))
  {
    hide CommandText, Sendable, Chunk, Terminated;
    if cs == [] {
      assert Terminated("") by { AlwaysTerminated(); }
    } else {
      WireChunks(cs[1..]);
      SendableFits(cs[0]);
      ChunkOfLine(CommandText(cs[0]), Wire(cs[1..]), MAX_LINE_LEN - 1);
      assert LinesOf(cs) == [CommandLine(cs[0])] + LinesOf(cs[1..]);
    }
  }

  lemma AlwaysTerminated()
    ensures Terminated("")
  {
  }

  lemma UnderstoodSent(c: Command)
    requires Sendable(c)
    ensures Understood(CommandLine(c)) == Some(c)
  {
    TrimmedLine(CommandText(c));
    ParseBuilt(c);
  }

  /** A command line without newline and terminator inside is understood exactly when
      trimming leaves its text alone. */
  lemma UnderstoodExactly(c: Command)
    requires WellFormed(c) && '\n' !in CommandText(c) && '\0' !in CommandText(c)
    ensures Understood(CommandLine(c)) == Some(c) <==> IsTrim(CommandText(c))
  {
    var text := CommandText(c);
    assert CString(CommandLine(c)) == text + "\n";
    TrimmedLineEnd(text);
    TrimmedIs(text);
    ParseBuilt(c);
    if TakesArguments(c) {
      ParserExact(Trimmed(text), c);
    } else {
      KeyEnds(KeyFor(c));
      assert text == KeyName(KeyFor(c));
    }
    hide ParseClient, Trimmed, CommandText, WellFormed;
  }

  lemma KeyEnds(k: Key)
    ensures IsTrim(KeyName(k))
  {
  }

  /** The stream round trip: for every list of sendable commands, however the
      kernel splits, delays and interrupts the bytes of their lines, the server's
      reads followed by trimming and parsing give back exactly that list. */
  lemma StreamRoundTrip(cs: seq<Command>, a: seq<Arrival>)
    requires forall c :: c in cs ==> Sendable(c)
    requires RecvFailed !in a && Bytes(a) == Wire(cs)
    ensures var lines := ReadAll(a, MAX_LINE_LEN - 1);
            |lines| == |cs| && forall i :: 0 <= i < |cs| ==> Understood(lines[i]) == Some(cs[i])
  {
    WireChunks(cs);
    ReadAllIsChunks(a, MAX_LINE_LEN - 1);
    forall i | 0 <= i < |cs| ensures Understood(CommandLine(cs[i])) == Some(cs[i]) {
      UnderstoodSent(cs[i]);
    }
  }

  lemma {:induction false} WireAppends(w: string, c: Command, cs: seq<Command>)
    ensures w + Wire([c] + cs) == (w + CommandLine(c)) + Wire(cs)
  {
    hide CommandLine;
    assert ([c] + cs)[1..] == cs;
    assert w + (CommandLine(c) + Wire(cs)) == (w + CommandLine(c)) + Wire(cs);
  }

  /** Sending the lines one after the other puts exactly that stream on the wire,
      whenever every send ends well. */
  method SendCommands(sock: Socket, cs: seq<Command>) returns (rc: Status)
    modifies sock`wire, sock`answers
    ensures rc == Ok ==> sock.wire == old(sock.wire) + Wire(cs)
  {
    hide CommandLine, Wire, Delivers;
    rc := Ok;
    for i := 0 to |cs|
      invariant rc == Ok && sock.wire + Wire(cs[i..]) == old(sock.wire) + Wire(cs)
    {
      WireAppends(sock.wire, cs[i], cs[i + 1..]);
      assert cs[i..] == [cs[i]] + cs[i + 1..];
      rc := sock.SendAll(CommandLine(cs[i]));
      if rc != Ok {
        return;
      }
    }
    assert cs[|cs|..] == [];
    assert Wire([]) == "" by { WireOfNone(); }
  }

  /** The bytes, read and understood line by line, are these commands. */
  ghost predicate Arrives(a: seq<Arrival>, cs: seq<Command>) {
    var lines := ReadAll(a, MAX_LINE_LEN - 1);
    |lines| == |cs| && forall i :: 0 <= i < |cs| ==> Understood(lines[i]) == Some(cs[i])
  }

  /** From send schedule to parsed list: if every send ends well, then however the kernel
      delivers the bytes that are on the wire, the server understands exactly the
      commands that were sent, in order. */
  method Deliver(sock: Socket, cs: seq<Command>) returns (rc: Status)
    requires sock.wire == "" && forall c :: c in cs ==> Sendable(c)
    modifies sock`wire, sock`answers
    ensures rc == Ok ==> forall a :: RecvFailed !in a && Bytes(a) == sock.wire ==> Arrives(a, cs)
  {
    rc := SendCommands(sock, cs);
    if rc == Ok {
      assert sock.wire == Wire(cs);
      forall a | RecvFailed !in a && Bytes(a) == sock.wire ensures Arrives(a, cs) {
        StreamRoundTrip(cs, a);
      }
    }
  }

  lemma WireOfNone()
    ensures Wire([]) == ""
  {
  }
}

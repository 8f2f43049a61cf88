/** Socket input and output of whole lines (src/common/utils.c and the reader in
    src/server/server.c). The kernel is an oracle: the socket carries the answers
    that send() and recv() are going to give. */
module LineIO {
  import opened Common

  /** One answer of send(): some bytes taken, EINTR, or any other error. */
  datatype SendAnswer = Took(n: nat) | SendInterrupted | SendFailed

  /** One answer of recv(): a byte, EINTR, or any other error. No answer left is end of file. */
  datatype Arrival = Byte(c: char) | RecvInterrupted | RecvFailed

  /** Whether a schedule of answers gets n bytes out: no error and no zero-byte
      answer before the accepted counts add up to n. */
  predicate Delivers(plan: seq<SendAnswer>, n: nat) {
    if n == 0 then true
    else if plan == [] then false
    else match plan[0]
      case Took(k) => k > 0 && Delivers(plan[1..], if k < n then n - k else 0)
      case SendInterrupted => Delivers(plan[1..], n)
      case SendFailed => false
  }

  datatype Ending = Line | EndOfFile | Broken

  /** What a read of at most room bytes takes: the bytes, what stays, how it ended. */
  datatype Taken = Taken(raw: string, rest: seq<Arrival>, how: Ending)

  function TakeLine(a: seq<Arrival>, room: nat): (t: Taken)
    ensures |t.raw| <= room
    decreases |a|
  {
    if room == 0 then Taken("", a, Line)
    else if a == [] then Taken("", [], EndOfFile)
    else match a[0]
      case Byte(c) =>
        if c == '\n' then Taken([c], a[1..], Line)
        else
          var t := TakeLine(a[1..], room - 1);
          Taken([c] + t.raw, t.rest, t.how)
      case RecvInterrupted => TakeLine(a[1..], room)
      case RecvFailed => Taken("", a[1..], Broken)
  }

  /** strlen and the string it measures. */
  function CString(s: string): (r: string)
    ensures r <= s && '\0' !in r
    ensures '\0' !in s ==> r == s
  {
    IndexOfAbsent(s, '\0');
    s[..IndexOf(s, '\0')]
  }

  lemma CStringEnds(s: string, k: nat)
    requires k < |s| && s[k] == '\0' && '\0' !in s[..k]
    ensures CString(s) == s[..k]
  {
    IndexOfSplit(s[..k], '\0', s[k + 1..]);
    assert s == s[..k] + ['\0'] + s[k + 1..];
  }

  /** trim_newline, in place on the caller's buffer. */
  method TrimNewline(s: array<char>)
    requires '\0' in s[..]
    modifies s
    ensures '\0' in s[..] && CString(s[..]) == Trimmed(old(CString(s[..])))
  {
    var len := IndexOf(s[..], '\0');
    IndexOfAbsent(s[..], '\0');
    while len > 0 && (s[len - 1] == '\n' || s[len - 1] == '\r')
      invariant 0 <= len < s.Length && s[len] == '\0' && '\0' !in s[..len]
      invariant Trimmed(s[..len]) == Trimmed(old(CString(s[..])))
    {
      assert s[..len][..len - 1] == s[..len - 1];
      s[len - 1] := '\0';
      len := len - 1;
    }
    CStringEnds(s[..], len);
  }

  class Socket {
    var wire: string
    var answers: seq<SendAnswer>
    var arriving: seq<Arrival>

    constructor (answers: seq<SendAnswer>, arriving: seq<Arrival>)
      ensures wire == "" && this.answers == answers && this.arriving == arriving
    {
      wire, this.answers, this.arriving := "", answers, arriving;
    }

    /** send(): the kernel takes a prefix of the data. */
    method Send(data: string) returns (r: SendAnswer)
      modifies this`wire, this`answers
      ensures old(answers) == [] ==> r == SendFailed && answers == []
      ensures old(answers) != [] ==> answers == old(answers)[1..]
      ensures old(answers) != [] ==>
                r == match old(answers)[0]
                     case Took(k) => Took(if k < |data| then k else |data|)
                     case o => o
      ensures wire == old(wire) + if r.Took? then data[..r.n] else ""
    {
      if answers == [] {
        return SendFailed;
      }
      r := answers[0];
      answers := answers[1..];
      if r.Took? {
        r := Took(if r.n < |data| then r.n else |data|);
        wire := wire + data[..r.n];
      }
    }

    /** recv() of one byte; None is end of file. */
    method Recv() returns (r: Option<Arrival>)
      modifies this`arriving
      ensures old(arriving) == [] ==> r == None && arriving == []
      ensures old(arriving) != [] ==> r == Some(old(arriving)[0]) && arriving == old(arriving)[1..]
    {
      if arriving == [] {
        return None;
      }
      r := Some(arriving[0]);
      arriving := arriving[1..];
    }

    /** send_all and server_send_all: under every schedule the bytes on the wire are
        a prefix of the line, and Ok means the whole line, which is the case exactly
        when the schedule gets that many bytes out. */
    method SendAll(buf: string) returns (rc: Status)
      modifies this`wire, this`answers
      ensures rc == Ok <==> Delivers(old(answers), |buf|)
      ensures rc == Ok ==> wire == old(wire) + buf
      ensures rc != Ok ==> rc == ErrIo && old(wire) <= wire < old(wire) + buf
    {
      var sent := 0;
      while sent < |buf|
        invariant 0 <= sent <= |buf| && wire == old(wire) + buf[..sent]
        invariant Delivers(answers, |buf| - sent) == Delivers(old(answers), |buf|)
        decreases |buf| - sent, |answers|
      {
        var n := Send(buf[sent..]);
        match n {
          case SendInterrupted =>
            continue;
          case SendFailed =>
            return ErrIo;
          case Took(k) =>
            if k == 0 {
              return ErrIo;
            }
            assert buf[..sent] + buf[sent..][..k] == buf[..sent + k];
            sent := sent + k;
        }
      }
      rc := Ok;
    }

    /** The byte loop of both line readers: fill buf up to a newline or the last place
        but one, and say how it ended. */
    method ReadBytes(buf: array<char>) returns (pos: nat, how: Ending)
      requires buf.Length >= 2
      modifies this`arriving, buf
      ensures pos < buf.Length
      ensures TakeLine(old(arriving), buf.Length - 1) == Taken(buf[..pos], arriving, how)
    {
      pos := 0;
      ghost var all := TakeLine(arriving, buf.Length - 1);
      while pos < buf.Length - 1
        invariant 0 <= pos < buf.Length
        invariant all == Before(buf[..pos], TakeLine(arriving, buf.Length - 1 - pos))
        decreases |arriving|
      {
        var n := Recv();
        match n {
          case None =>
            return pos, EndOfFile;
          case Some(RecvInterrupted) =>
            continue;
          case Some(RecvFailed) =>
            return pos, Broken;
          case Some(Byte(c)) =>
            buf[pos] := c;
            pos := pos + 1;
            assert buf[..pos] == buf[..pos - 1] + [c];
            if c == '\n' {
              return pos, Line;
            }
        }
      }
      how := Line;
    }

    /** server_recv_line: read, end the string and trim it. At end of file after some
        bytes the source returns Ok without ending the string; only those raw bytes are
        then known. */
    method ServerRecvLine(buf: array<char>) returns (rc: Status)
      modifies this`arriving, buf
      ensures buf.Length < 2 ==> rc == Err && arriving == old(arriving) && buf[..] == old(buf[..])
      ensures buf.Length >= 2 ==>
                var t := TakeLine(old(arriving), buf.Length - 1);
                && arriving == t.rest
                && match t.how
                   case Line => rc == Ok && '\0' in buf[..] && CString(buf[..]) == Trimmed(CString(t.raw))
                   case EndOfFile => rc == (if t.raw == "" then ErrIo else Ok) && t.raw <= buf[..]
                   case Broken => rc == ErrIo
    {
      if buf.Length < 2 {
        return Err;
      }
      hide TakeLine;
      var pos, how := ReadBytes(buf);
      if how == EndOfFile {
        return if pos == 0 then ErrIo else Ok;
      }
      if how == Broken {
        return ErrIo;
      }
      EndAndTrim(buf, pos);
      rc := Ok;
    }

    /** recv_line: the same, but a line that end of file cuts short is ended and trimmed
        as well. */
    method RecvLine(buf: array<char>) returns (rc: Status)
      modifies this`arriving, buf
      ensures buf.Length < 2 ==> rc == Err && arriving == old(arriving) && buf[..] == old(buf[..])
      ensures buf.Length >= 2 ==>
                var t := TakeLine(old(arriving), buf.Length - 1);
                && arriving == t.rest
                && rc == (if t.how == Broken || (t.how == EndOfFile && t.raw == "") then ErrIo else Ok)
                && (rc == Ok ==> '\0' in buf[..] && CString(buf[..]) == Trimmed(CString(t.raw)))
    {
      if buf.Length < 2 {
        return Err;
      }
      hide TakeLine;
      var pos, how := ReadBytes(buf);
      if how == Broken || (how == EndOfFile && pos == 0) {
        return ErrIo;
      }
      EndAndTrim(buf, pos);
      rc := Ok;
    }
  }

  /** The bytes already taken, followed by what is still to be taken. */
  function Before(taken: string, t: Taken): Taken {
    Taken(taken + t.raw, t.rest, t.how)
  }

  /** buf[pos] = '\0' and trim_newline. */
  method EndAndTrim(buf: array<char>, pos: nat)
    requires pos < buf.Length
    modifies buf
    ensures '\0' in buf[..] && CString(buf[..]) == Trimmed(CString(old(buf[..pos])))
  {
    ghost var raw := buf[..pos];
    buf[pos] := '\0';
    assert buf[..][..pos] == raw;
    EndedString(buf[..], pos);
    TrimNewline(buf);
  }

  lemma EndedString(s: string, pos: nat)
    requires pos < |s| && s[pos] == '\0'
    ensures CString(s) == CString(s[..pos]) && '\0' in s
  {
    var k := IndexOf(s[..pos], '\0');
    IndexOfAbsent(s[..pos], '\0');
    assert s[..pos][..k] == s[..k];
    CStringEnds(s, k);
  }
}

/** The server's half of the protocol (src/common/protocol.c): response lines,
    the client's parser for them, and the relay of a message from one to the other. */
module ServerLines {
  import opened Common
  import opened Protocol

  datatype Response =
    | Okay(msg: string)
    | Error(msg: string)
    | Welcome(user: string)
    | Broadcast(user: string, stamp: string, room: string, text: string)
    | Private(from: string, stamp: string, text: string)
    | UserJoin(user: string, room: string)
    | UserLeft(user: string, room: string)
    | RoomJoined(room: string)
    | RoomHistory(payload: string)
    | Kicked(reason: string)
    | Users(list: string)

  datatype Word = WOk | WErr | WWelcome | WBroadcast | WPm | WUserJoin | WUserLeft
                | WRoomJoined | WHistory | WKicked | WList

  function WordName(w: Word): string {
    match w
    case WOk => "OK"
    case WErr => "ERR"
    case WWelcome => "WELCOME"
    case WBroadcast => "BROADCAST"
    case WPm => "PM"
    case WUserJoin => "USER_JOIN"
    case WUserLeft => "USER_LEFT"
    case WRoomJoined => "ROOM_JOINED"
    case WHistory => "HISTORY"
    case WKicked => "KICKED"
    case WList => "LIST"
  }

  function WordOf(s: string): (w: Option<Word>)
    ensures w.Some? ==> WordName(w.value) == s
  {
    if s == "OK" then Some(WOk)
    else if s == "ERR" then Some(WErr)
    else if s == "WELCOME" then Some(WWelcome)
    else if s == "BROADCAST" then Some(WBroadcast)
    else if s == "PM" then Some(WPm)
    else if s == "USER_JOIN" then Some(WUserJoin)
    else if s == "USER_LEFT" then Some(WUserLeft)
    else if s == "ROOM_JOINED" then Some(WRoomJoined)
    else if s == "HISTORY" then Some(WHistory)
    else if s == "KICKED" then Some(WKicked)
    else if s == "LIST" then Some(WList)
    else None
  }

  lemma WordOfName(w: Word)
    ensures WordOf(WordName(w)) == Some(w) && ' ' !in WordName(w) && 2 <= |WordName(w)| <= 11
  {
  }

  function WordFor(r: Response): Word {
    match r
    case Okay(_) => WOk
    case Error(_) => WErr
    case Welcome(_) => WWelcome
    case Broadcast(_, _, _, _) => WBroadcast
    case Private(_, _, _) => WPm
    case UserJoin(_, _) => WUserJoin
    case UserLeft(_, _) => WUserLeft
    case RoomJoined(_) => WRoomJoined
    case RoomHistory(_) => WHistory
    case Kicked(_) => WKicked
    case Users(_) => WList
  }

  function FieldText(r: Response): string {
    match r
    case Okay(m) => m
    case Error(m) => m
    case Welcome(u) => u
    case Broadcast(u, s, room, t) => u + " " + (s + " " + (room + " " + t))
    case Private(u, s, t) => u + " " + (s + " " + t)
    case UserJoin(u, room) => u + " " + room
    case UserLeft(u, room) => u + " " + room
    case RoomJoined(room) => room
    case RoomHistory(p) => p
    case Kicked(m) => m
    case Users(l) => l
  }

  /** What the builder of the response prints. */
  function ResponseLine(r: Response): string {
    (WordName(WordFor(r)) + " " + FieldText(r)) + "\n"
  }

  /** snprintf into buflen bytes: Ok when the whole line and its terminator fit. */
  method BuildResponse(buflen: nat, r: Response) returns (rc: Status, buf: string)
    ensures rc == Ok <==> |ResponseLine(r)| < buflen
    ensures rc == Ok ==> buf == ResponseLine(r)
    ensures rc != Ok ==> rc == Err && buf <= ResponseLine(r)
  {
    var line := WordName(WordFor(r)) + " " + FieldText(r) + "\n";
    if |line| >= buflen {
      return Err, if buflen == 0 then "" else line[..buflen - 1];
    }
    return Ok, line;
  }

  /** parse_four_fields_rest_msg */
  function FourFields(rest: string): Option<(string, string, string, string)> {
    match TakeWord(rest, MAX_USERNAME_LEN)
    case None => None
    case Some((a, r1)) =>
      match TakeWord(r1, MAX_STAMP_LEN)
      case None => None
      case Some((b, r2)) =>
        match TwoTokens(r2, MAX_ROOM_NAME_LEN, MAX_MSG_LEN)
        case None => None
        case Some((c, d)) => Some((a, b, c, d))
  }

  /** parse_three_fields_msg */
  function ThreeFields(rest: string): Option<(string, string, string)> {
    match TakeWord(rest, MAX_USERNAME_LEN)
    case None => None
    case Some((a, r1)) =>
      match TwoTokens(r1, MAX_STAMP_LEN, MAX_MSG_LEN)
      case None => None
      case Some((b, c)) => Some((a, b, c))
  }

  /** parse_two_fields: the second field may be missing. */
  function TwoFields(rest: string): Option<(string, string)> {
    if IndexOf(rest, ' ') == |rest| then
      if FitsRest(rest, MAX_USERNAME_LEN) then Some((rest, "")) else None
    else TwoTokens(rest, MAX_USERNAME_LEN, MAX_ROOM_NAME_LEN)
  }

  function ParseFields(w: Word, rest: string): Option<Response> {
    match w
    case WOk => Some(Okay(Clip(rest, MAX_MSG_LEN - 1)))
    case WErr => Some(Error(Clip(rest, MAX_MSG_LEN - 1)))
    case WWelcome => Some(Welcome(Clip(rest, MAX_USERNAME_LEN - 1)))
    case WBroadcast =>
      (match FourFields(rest)
       case None => None
       case Some((a, b, c, d)) => Some(Broadcast(a, b, c, d)))
    case WPm =>
      (match ThreeFields(rest)
       case None => None
       case Some((a, b, c)) => Some(Private(a, b, c)))
    case WUserJoin =>
      (match TwoFields(rest)
       case None => None
       case Some((a, b)) => Some(UserJoin(a, b)))
    case WUserLeft =>
      (match TwoFields(rest)
       case None => None
       case Some((a, b)) => Some(UserLeft(a, b)))
    case WRoomJoined => Some(RoomJoined(Clip(rest, MAX_ROOM_NAME_LEN - 1)))
    case WHistory => Some(RoomHistory(Clip(rest, MAX_LINE_LEN - 1)))
    case WKicked => Some(Kicked(Clip(rest, MAX_MSG_LEN - 1)))
    case WList => Some(Users(Clip(rest, MAX_MSG_LEN - 1)))
  }

  /** protocol_parse_server_line */
  function ParseServer(line: string): Option<Response> {
    match SplitFirst(Trimmed(Clip(line, MAX_LINE_LEN - 1)))
    case None => None
    case Some((cmd, rest)) =>
      match WordOf(cmd)
      case None => None
      case Some(w) => ParseFields(w, rest)
  }

  lemma ParseWord(w: Word, rest: string)
    requires IsTrim(rest) && |rest| < MAX_LINE_LEN - 13
    ensures ParseServer((WordName(w) + " " + rest) + "\n") == ParseFields(w, rest)
  {
    var text := WordName(w) + " " + rest;
    WordOfName(w);
    assert rest != "" ==> text[|text| - 1] == rest[|rest| - 1];
    TrimmedLine(text);
    assert Clip(text + "\n", MAX_LINE_LEN - 1) == text + "\n";
    SplitFirstOf(WordName(w), rest);
  }

  /** A line built from a fitting, trim payload parses to the payload's fields. */
  lemma ParseBuiltResponse(r: Response)
    requires IsTrim(FieldText(r)) && |FieldText(r)| < MAX_LINE_LEN - 13
    ensures |ResponseLine(r)| < MAX_LINE_LEN
    ensures ParseServer(ResponseLine(r)) == ParseFields(WordFor(r), FieldText(r))
  {
    WordOfName(WordFor(r));
    ParseWord(WordFor(r), FieldText(r));
  }

  lemma TrimTail(a: string, b: string)
    requires b != "" && IsTrim(b)
    ensures IsTrim(a + b)
  {
    assert (a + b)[|a + b| - 1] == b[|b| - 1];
  }

  lemma FourFieldsOf(user: string, stamp: string, room: string, text: string)
    requires FitsWord(user, MAX_USERNAME_LEN) && FitsWord(stamp, MAX_STAMP_LEN)
    requires FitsRest(room, MAX_ROOM_NAME_LEN) && FitsRest(text, MAX_MSG_LEN)
    ensures FourFields(user + " " + (stamp + " " + (room + " " + text))) == Some((user, stamp, room, text))
            <==> ' ' !in room
  {
    var rest := room + " " + text;
    TakeWordOf(user, stamp + " " + rest, MAX_USERNAME_LEN);
    TakeWordOf(stamp, rest, MAX_STAMP_LEN);
    if ' ' !in room {
      TakeWordOf(room, text, MAX_ROOM_NAME_LEN);
    } else {
      var k :| 0 <= k < |room| && room[k] == ' ';
      assert rest[k] == ' ';
      var i := IndexOf(rest, ' ');
      assert i <= k && |rest[..i]| < |room|;
    }
  }

  /** The chat relay on every sender, time and room the server can hold: the line
      fits, and the client reads back exactly what was broadcast if and only if the
      room name has no space, although JOIN_ROOM accepts names with one. */
  lemma BroadcastRelay(user: string, stamp: string, room: string, text: string)
    requires FitsWord(user, MAX_USERNAME_LEN) && FitsWord(stamp, MAX_STAMP_LEN)
    requires FitsRest(room, MAX_ROOM_NAME_LEN) && FitsRest(text, MAX_MSG_LEN) && IsTrim(text)
    ensures |ResponseLine(Broadcast(user, stamp, room, text))| < MAX_LINE_LEN
    ensures ParseServer(ResponseLine(Broadcast(user, stamp, room, text))) == Some(Broadcast(user, stamp, room, text))
            <==> ' ' !in room
  {
    var r := Broadcast(user, stamp, room, text);
    hide ParseServer, ResponseLine, FourFields;
    var head := user + " " + (stamp + " " + (room + " "));
    assert FieldText(r) == head + text;
    TrimTail(head, text);
    ParseBuiltResponse(r);
    FourFieldsOf(user, stamp, room, text);
  }

  /** The text of a line that was read and trimmed by the server is itself trim. */
  lemma ReadTextIsTrim(line: string)
    requires ParseClient(Trimmed(line)).Some?
    ensures match ParseClient(Trimmed(line)).value
            case Msg(t) => FitsRest(t, MAX_MSG_LEN) && IsTrim(t)
            case Pm(u, t) => FitsWord(u, MAX_USERNAME_LEN) && FitsRest(t, MAX_MSG_LEN) && IsTrim(t)
            case JoinRoom(r) => FitsRest(r, MAX_ROOM_NAME_LEN) && IsTrim(r)
            case _ => true
  {
    var c := ParseClient(Trimmed(line)).value;
    ParsedIsBuilt(Trimmed(line));
    hide ParseClient, Trimmed;
    match c
    case Msg(t) => TextEnds(c, t);
    case Pm(u, t) => TextEnds(c, t);
    case JoinRoom(r) => TextEnds(c, r);
    case _ =>
  }

  lemma TextEnds(c: Command, last: string)
    requires last != "" && (c == Msg(last) || c == JoinRoom(last) || (c.Pm? && c.text == last))
    requires IsTrim(CommandText(c))
    ensures IsTrim(last)
  {
    var text := CommandText(c);
    assert text[|text| - 1] == last[|last| - 1];
  }

  /** End to end: whatever MSG line the server reads, its text reaches a reader of
      the BROADCAST line unchanged, with its sender, time and room, exactly when
      the room name is free of spaces. */
  lemma ChatRelay(line: string, text: string, user: string, stamp: string, room: string)
    requires ParseClient(Trimmed(line)) == Some(Msg(text))
    requires FitsWord(user, MAX_USERNAME_LEN) && FitsWord(stamp, MAX_STAMP_LEN) && FitsRest(room, MAX_ROOM_NAME_LEN)
    ensures ParseServer(ResponseLine(Broadcast(user, stamp, room, text))) == Some(Broadcast(user, stamp, room, text))
            <==> ' ' !in room
  {
    hide ParseServer;
    ReadTextIsTrim(line);
    BroadcastRelay(user, stamp, room, text);
  }

  lemma ThreeFieldsOf(user: string, stamp: string, text: string)
    requires FitsWord(user, MAX_USERNAME_LEN) && FitsWord(stamp, MAX_STAMP_LEN)
    requires FitsRest(text, MAX_MSG_LEN) && IsTrim(text)
    ensures ThreeFields(user + " " + (stamp + " " + text)) == Some((user, stamp, text))
    ensures IsTrim(user + " " + (stamp + " " + text))
  {
    TakeWordOf(user, stamp + " " + text, MAX_USERNAME_LEN);
    TakeWordOf(stamp, text, MAX_STAMP_LEN);
    TrimTail(stamp + " ", text);
    TrimTail(user + " ", stamp + " " + text);
  }

  lemma PrivateFields(user: string, stamp: string, text: string)
    requires FitsWord(user, MAX_USERNAME_LEN) && FitsWord(stamp, MAX_STAMP_LEN)
    requires FitsRest(text, MAX_MSG_LEN) && IsTrim(text)
    ensures var r := Private(user, stamp, text);
            |ResponseLine(r)| < MAX_LINE_LEN && ParseServer(ResponseLine(r)) == Some(r)
  {
    var r := Private(user, stamp, text);
    hide ParseServer, ResponseLine, ThreeFields, IsTrim;
    ThreeFieldsOf(user, stamp, text);
    ParseBuiltResponse(r);
  }

  /** Whatever PM line the server reads, its text reaches the recipient unchanged. */
  lemma PrivateRelay(line: string, target: string, text: string, user: string, stamp: string)
    requires ParseClient(Trimmed(line)) == Some(Pm(target, text))
    requires FitsWord(user, MAX_USERNAME_LEN) && FitsWord(stamp, MAX_STAMP_LEN)
    ensures ParseServer(ResponseLine(Private(user, stamp, text))) == Some(Private(user, stamp, text))
  {
    hide ParseServer;
    ReadTextIsTrim(line);
    PrivateFields(user, stamp, text);
  }

  lemma TwoFieldsOf(user: string, room: string)
    requires FitsWord(user, MAX_USERNAME_LEN) && FitsRest(room, MAX_ROOM_NAME_LEN) && IsTrim(room)
    ensures TwoFields(user + " " + room) == Some((user, room)) && IsTrim(user + " " + room)
  {
    IndexOfSplit(user, ' ', room);
    TakeWordOf(user, room, MAX_USERNAME_LEN);
    TrimTail(user + " ", room);
  }

  /** Presence lines survive the relay even for room names with spaces, because
      the room is the last field. */
  lemma PresenceRelay(r: Response)
    requires r.UserJoin? || r.UserLeft?
    requires FitsWord(r.user, MAX_USERNAME_LEN) && FitsRest(r.room, MAX_ROOM_NAME_LEN) && IsTrim(r.room)
    ensures |ResponseLine(r)| < MAX_LINE_LEN && ParseServer(ResponseLine(r)) == Some(r)
  {
    hide ParseServer, ResponseLine, TwoFields, IsTrim;
    TwoFieldsOf(r.user, r.room);
    ParseBuiltResponse(r);
  }

  lemma {:induction false} TrimmedTail(a: string, b: string)
    requires a != "" && IsTrim(a)
    ensures Trimmed(a + b) == a + Trimmed(b)
  {
    if b == "" {
      assert a + b == a;
    } else {
      assert (a + b)[..|a + b| - 1] == a + b[..|b| - 1];
      TrimmedTail(a, b[..|b| - 1]);
    }
  }

  /** A user list of at most 511 characters fits the LIST line and is cut neither by it
      nor by its parser; it reads back unchanged exactly when its end survives trimming. */
  lemma ListRelay(list: string)
    requires |list| < MAX_MSG_LEN
    ensures |ResponseLine(Users(list))| < MAX_LINE_LEN
    ensures ParseServer(ResponseLine(Users(list))) == Some(Users(Trimmed(list)))
    ensures ParseServer(ResponseLine(Users(list))) == Some(Users(list)) <==> IsTrim(list)
  {
    WordOfName(WList);
    hide Trimmed, SplitFirst, WordOf, IsTrim;
    var line := (WordName(WList) + " " + list) + "\n";
    assert ResponseLine(Users(list)) == line && Clip(line, MAX_LINE_LEN - 1) == line;
    TrimmedList(list);
    TrimmedIs(list);
  }

  lemma TrimmedList(list: string)
    ensures SplitFirst(Trimmed((WordName(WList) + " " + list) + "\n")) == Some((WordName(WList), Trimmed(list)))
  {
    var word := WordName(WList) + " ";
    WordOfName(WList);
    TrimmedLineEnd(word + list);
    TrimmedTail(word, list);
    SplitFirstOf(WordName(WList), Trimmed(list));
    hide Trimmed, SplitFirst, WordName;
  }
}

/** The text protocol (src/common/protocol.c): one command or response a line. */
module Protocol {
  import opened Common

  const CMD_LEN: nat := 16

  datatype Command =
    | Auth(user: string, pass: string)
    | JoinRoom(room: string)
    | Msg(text: string)
    | Pm(target: string, text: string)
    | List
    | History
    | Kick(target: string)
    | Quit

  function KeyFor(c: Command): Key {
    match c
    case Auth(_, _) => KAuth
    case JoinRoom(_) => KJoinRoom
    case Msg(_) => KMsg
    case Pm(_, _) => KPm
    case List => KList
    case History => KHistory
    case Kick(_) => KKick
    case Quit => KQuit
  }

  function ArgumentText(c: Command): string {
    match c
    case Auth(u, p) => u + " " + p
    case JoinRoom(r) => r
    case Msg(t) => t
    case Pm(u, t) => u + " " + t
    case Kick(u) => u
    case _ => ""
  }

  predicate TakesArguments(c: Command) {
    !c.List? && !c.History? && !c.Quit?
  }

  /** What the builders for the client side print, without the final newline. */
  function CommandText(c: Command): string {
    KeyName(KeyFor(c)) + if TakesArguments(c) then " " + ArgumentText(c) else ""
  }

  function CommandLine(c: Command): string {
    CommandText(c) + "\n"
  }

  /** The argument rules of the client side: lengths, no space inside the first
      of two arguments, nothing empty. */
  predicate FitsWord(s: string, cap: nat) {
    0 < |s| < cap && ' ' !in s
  }

  predicate FitsRest(s: string, cap: nat) {
    0 < |s| < cap
  }

  predicate WellFormed(c: Command) {
    match c
    case Auth(u, p) => FitsWord(u, MAX_USERNAME_LEN) && FitsRest(p, MAX_MSG_LEN)
    case JoinRoom(r) => FitsRest(r, MAX_ROOM_NAME_LEN)
    case Msg(t) => FitsRest(t, MAX_MSG_LEN)
    case Pm(u, t) => FitsWord(u, MAX_USERNAME_LEN) && FitsRest(t, MAX_MSG_LEN)
    case Kick(u) => FitsRest(u, MAX_USERNAME_LEN)
    case _ => true
  }

  /** split_first_token */
  function SplitFirst(line: string): Option<(string, string)> {
    var i := IndexOf(line, ' ');
    if i >= CMD_LEN then None
    else if i == |line| then Some((line, ""))
    else Some((line[..i], line[i + 1..]))
  }

  /** One space-terminated field of fewer than cap characters, and what follows. */
  function TakeWord(rest: string, cap: nat): Option<(string, string)> {
    var i := IndexOf(rest, ' ');
    if i == |rest| || i == 0 || i >= cap then None else Some((rest[..i], rest[i + 1..]))
  }

  /** parse_two_tokens */
  function TwoTokens(rest: string, aCap: nat, bCap: nat): Option<(string, string)> {
    match TakeWord(rest, aCap)
    case None => None
    case Some((a, b)) => if FitsRest(b, bCap) then Some((a, b)) else None
  }

  /** The command words (client_cmd_t) and the strcmp chain that finds them. */
  datatype Key = KAuth | KJoinRoom | KMsg | KPm | KList | KHistory | KKick | KQuit

  function KeyName(k: Key): string {
    match k
    case KAuth => "AUTH"
    case KJoinRoom => "JOIN_ROOM"
    case KMsg => "MSG"
    case KPm => "PM"
    case KList => "LIST"
    case KHistory => "HISTORY"
    case KKick => "KICK"
    case KQuit => "QUIT"
  }

  function KeyOf(cmd: string): (k: Option<Key>)
    ensures k.Some? ==> KeyName(k.value) == cmd
  {
    if cmd == "AUTH" then Some(KAuth)
    else if cmd == "JOIN_ROOM" then Some(KJoinRoom)
    else if cmd == "MSG" then Some(KMsg)
    else if cmd == "PM" then Some(KPm)
    else if cmd == "LIST" then Some(KList)
    else if cmd == "HISTORY" then Some(KHistory)
    else if cmd == "KICK" then Some(KKick)
    else if cmd == "QUIT" then Some(KQuit)
    else None
  }

  lemma KeyOfName(k: Key)
    ensures KeyOf(KeyName(k)) == Some(k) && ' ' !in KeyName(k) && |KeyName(k)| < CMD_LEN
  {
  }

  /** The rest of the line, read as the arguments of the command. */
  function ParseArguments(k: Key, rest: string): Option<Command> {
    match k
    case KAuth =>
      (match TwoTokens(rest, MAX_USERNAME_LEN, MAX_MSG_LEN)
       case None => None
       case Some((u, p)) => Some(Auth(u, p)))
    case KJoinRoom => if FitsRest(rest, MAX_ROOM_NAME_LEN) then Some(JoinRoom(rest)) else None
    case KMsg => if FitsRest(rest, MAX_MSG_LEN) then Some(Msg(rest)) else None
    case KPm =>
      (match TwoTokens(rest, MAX_USERNAME_LEN, MAX_MSG_LEN)
       case None => None
       case Some((u, t)) => Some(Pm(u, t)))
    case KList => Some(List)
    case KHistory => Some(History)
    case KKick => if FitsRest(rest, MAX_USERNAME_LEN) then Some(Kick(rest)) else None
    case KQuit => Some(Quit)
  }

  /** protocol_parse_client_line on a line without its newline. */
  function ParseClient(line: string): Option<Command> {
    match SplitFirst(line)
    case None => None
    case Some((cmd, rest)) =>
      match KeyOf(cmd)
      case None => None
      case Some(k) => ParseArguments(k, rest)
  }

  lemma SplitFirstOf(cmd: string, rest: string)
    requires ' ' !in cmd && |cmd| < CMD_LEN
    ensures SplitFirst(cmd + " " + rest) == Some((cmd, rest))
    ensures SplitFirst(cmd) == Some((cmd, ""))
  {
    IndexOfSplit(cmd, ' ', rest);
    IndexOfAbsent(cmd, ' ');
    var s := cmd + " " + rest;
    assert s[..|cmd|] == cmd && s[|cmd| + 1..] == rest;
  }

  lemma TakeWordOf(a: string, rest: string, cap: nat)
    requires FitsWord(a, cap)
    ensures TakeWord(a + " " + rest, cap) == Some((a, rest))
  {
    IndexOfSplit(a, ' ', rest);
    var s := a + " " + rest;
    assert s[..|a|] == a && s[|a| + 1..] == rest;
  }

  lemma TakeWordExact(s: string, cap: nat)
    ensures var w := TakeWord(s, cap);
            w.Some? ==> FitsWord(w.value.0, cap) && s == w.value.0 + " " + w.value.1
  {
    var i := IndexOf(s, ' ');
    if i < |s| {
      assert s == s[..i] + " " + s[i + 1..];
    }
  }

  lemma SplitFirstExact(s: string)
    ensures var w := SplitFirst(s);
            w.Some? ==> ' ' !in w.value.0 && (s == w.value.0 + " " + w.value.1 || (s == w.value.0 && w.value.1 == ""))
  {
    var i := IndexOf(s, ' ');
    if i < |s| {
      assert s == s[..i] + " " + s[i + 1..];
    } else {
      assert s == s[..i];
    }
  }

  lemma ArgumentsBuilt(c: Command)
    requires WellFormed(c)
    ensures ParseArguments(KeyFor(c), ArgumentText(c)) == Some(c)
  {
    match c
    case Auth(u, p) => TakeWordOf(u, p, MAX_USERNAME_LEN);
    case Pm(u, t) => TakeWordOf(u, t, MAX_USERNAME_LEN);
    case _ =>
  }

  lemma ArgumentsExact(k: Key, rest: string)
    ensures var c := ParseArguments(k, rest);
            c.Some? ==> WellFormed(c.value) && KeyFor(c.value) == k
                        && (TakesArguments(c.value) ==> ArgumentText(c.value) == rest)
  {
    TakeWordExact(rest, MAX_USERNAME_LEN);
  }

  /** The line that names command k, with or without arguments, is read as k. */
  lemma ParseNamed(k: Key, rest: string)
    ensures ParseClient(KeyName(k) + " " + rest) == ParseArguments(k, rest)
    ensures ParseClient(KeyName(k)) == ParseArguments(k, "")
  {
    KeyOfName(k);
    SplitFirstOf(KeyName(k), rest);
  }

  /** What was read as c is the name of c's command and c's arguments. */
  lemma ParsedParts(line: string) returns (rest: string)
    requires ParseClient(line).Some?
    ensures var c := ParseClient(line).value;
            && WellFormed(c)
            && (TakesArguments(c) ==> rest == ArgumentText(c) && rest != "")
            && (line == KeyName(KeyFor(c)) + " " + rest || (line == KeyName(KeyFor(c)) && rest == ""))
  {
    SplitFirstExact(line);
    rest := SplitFirst(line).value.1;
    ArgumentsExact(KeyOf(SplitFirst(line).value.0).value, rest);
  }

  /** Every command the client can build parses back to itself. */
  lemma ParseBuilt(c: Command)
    requires WellFormed(c)
    ensures ParseClient(CommandText(c)) == Some(c)
  {
    ArgumentsBuilt(c);
    ParseNamed(KeyFor(c), ArgumentText(c));
    var text := KeyName(KeyFor(c)) + (" " + ArgumentText(c));
    assert text == KeyName(KeyFor(c)) + " " + ArgumentText(c);
    assert KeyName(KeyFor(c)) + "" == KeyName(KeyFor(c));
  }

  lemma JoinedText(c: Command, name: string, rest: string)
    requires TakesArguments(c) && name == KeyName(KeyFor(c)) && rest == ArgumentText(c)
    ensures CommandText(c) == name + " " + rest
  {
    assert name + (" " + rest) == name + " " + rest;
  }

  lemma ParsedIsBuilt(line: string)
    ensures var c := ParseClient(line);
            c.Some? ==> WellFormed(c.value) && (TakesArguments(c.value) ==> CommandText(c.value) == line)
  {
    if ParseClient(line).Some? {
      var rest := ParsedParts(line);
      var c := ParseClient(line).value;
      if TakesArguments(c) {
        JoinedText(c, KeyName(KeyFor(c)), rest);
      }
    }
  }

  /** Parser exactness: for the five commands that carry arguments, a line is
      accepted exactly when it is what the builder prints for arguments that obey
      the rules; so those arguments are unique. */
  lemma ParserExact(line: string, c: Command)
    requires TakesArguments(c)
    ensures ParseClient(line) == Some(c) <==> WellFormed(c) && CommandText(c) == line
  {
    if WellFormed(c) {
      ParseBuilt(c);
    }
    ParsedIsBuilt(line);
  }

  /** parse after build after parse is parse, for all eight commands. */
  lemma ParseBuildParse(line: string)
    requires ParseClient(line).Some?
    ensures ParseClient(CommandText(ParseClient(line).value)) == ParseClient(line)
  {
    ParsedIsBuilt(line);
    ParseBuilt(ParseClient(line).value);
  }

  /** parsed_cmd_t */
  datatype ParsedCmd = ParsedCmd(cmd: Option<Key>, arg1: string, arg2: string)

  function Filled(c: Command): ParsedCmd {
    match c
    case Auth(u, p) => ParsedCmd(Some(KAuth), u, p)
    case JoinRoom(r) => ParsedCmd(Some(KJoinRoom), r, "")
    case Msg(t) => ParsedCmd(Some(KMsg), "", t)
    case Pm(u, t) => ParsedCmd(Some(KPm), u, t)
    case List => ParsedCmd(Some(KList), "", "")
    case History => ParsedCmd(Some(KHistory), "", "")
    case Kick(u) => ParsedCmd(Some(KKick), u, "")
    case Quit => ParsedCmd(Some(KQuit), "", "")
  }

  /** parse_two_tokens, writing into the two argument arrays. */
  method ParseTwoTokens(rest: string, aLen: nat, bLen: nat) returns (rc: Status, a: string, b: string)
    ensures rc == Ok <==> TwoTokens(rest, aLen, bLen).Some?
    ensures rc == Ok ==> TwoTokens(rest, aLen, bLen) == Some((a, b))
    ensures rc != Ok ==> rc == ErrProtocol
  {
    a, b := "", "";
    var sp := IndexOf(rest, ' ');
    if sp == |rest| {
      return ErrProtocol, a, b;
    }
    if sp == 0 || sp >= aLen {
      return ErrProtocol, a, b;
    }
    a := rest[..sp];
    var msg := rest[sp + 1..];
    if msg == "" || |msg| >= bLen {
      return ErrProtocol, a, b;
    }
    b := Clip(msg, bLen - 1);
    rc := Ok;
  }

  /** protocol_parse_client_line, filling the caller's structure field by field. */
  method ParseClientLine(line: string) returns (rc: Status, out: ParsedCmd)
    ensures rc == Ok <==> ParseClient(line).Some?
    ensures rc == Ok ==> out == Filled(ParseClient(line).value)
    ensures rc != Ok ==> rc == ErrProtocol
  {
    out := ParsedCmd(None, "", "");
    var split := SplitFirst(line);
    if split.None? {
      return ErrProtocol, out;
    }
    var rest := split.value.1;
    var key := KeyOf(split.value.0);
    if key.None? {
      return ErrProtocol, out;
    }
    out := out.(cmd := key);
    match key.value {
      case KAuth | KPm =>
        var a, b;
        rc, a, b := ParseTwoTokens(rest, MAX_USERNAME_LEN, MAX_MSG_LEN);
        out := out.(arg1 := a, arg2 := b);
      case KJoinRoom =>
        if rest == "" || |rest| >= MAX_ROOM_NAME_LEN {
          return ErrProtocol, out;
        }
        out := out.(arg1 := Clip(rest, MAX_ROOM_NAME_LEN - 1));
        rc := Ok;
      case KMsg =>
        if rest == "" || |rest| >= MAX_MSG_LEN {
          return ErrProtocol, out;
        }
        out := out.(arg2 := Clip(rest, MAX_MSG_LEN - 1));
        rc := Ok;
      case KKick =>
        if rest == "" || |rest| >= MAX_USERNAME_LEN {
          return ErrProtocol, out;
        }
        out := out.(arg1 := Clip(rest, MAX_USERNAME_LEN - 1));
        rc := Ok;
      case KList | KHistory | KQuit =>
        rc := Ok;
    }
  }
}

/** The user database (src/server/auth.c). The digest of a password is a parameter. */
module Auth {
  import opened Common

  datatype UserRecord = UserRecord(username: string, hash: string, admin: bool)

  /** The first record of the list that carries the name. */
  function FirstMatch(records: seq<UserRecord>, username: string): Option<UserRecord> {
    if records == [] then None
    else if records[0].username == username then Some(records[0])
    else FirstMatch(records[1..], username)
  }

  predicate Verified(records: seq<UserRecord>, digest: string -> string, username: string, password: string) {
    var m := FirstMatch(records, username);
    m.Some? && m.value.hash == digest(password)
  }

  predicate Admin(records: seq<UserRecord>, username: string) {
    var m := FirstMatch(records, username);
    m.Some? && m.value.admin
  }

  function LastMatch(records: seq<UserRecord>, username: string): Option<UserRecord> {
    if records == [] then None
    else if records[|records| - 1].username == username then Some(records[|records| - 1])
    else LastMatch(records[..|records| - 1], username)
  }

  function Reversed(records: seq<UserRecord>): (r: seq<UserRecord>)
    ensures |r| == |records|
  {
    if records == [] then [] else [records[|records| - 1]] + Reversed(records[..|records| - 1])
  }

  /** Records are prepended while loading, so a later line of the file for the same
      name is the one that counts. */
  lemma {:induction false} LaterLineWins(lines: seq<UserRecord>, username: string)
    ensures FirstMatch(Reversed(lines), username) == LastMatch(lines, username)
  {
    if lines != [] {
      assert Reversed(lines)[1..] == Reversed(lines[..|lines| - 1]);
      LaterLineWins(lines[..|lines| - 1], username);
    }
  }

  lemma {:induction false} MatchSplit(records: seq<UserRecord>, i: nat, username: string)
    requires i <= |records| && forall j :: 0 <= j < i ==> records[j].username != username
    ensures FirstMatch(records, username) == FirstMatch(records[i..], username)
  {
    if i > 0 {
      MatchSplit(records[1..], i - 1, username);
      assert records[1..][i - 1..] == records[i..];
    }
  }

  class AuthDb {
    const digest: string -> string
    var records: seq<UserRecord>

    /** auth_init on the records that the loader reads from the file, in file order. */
    constructor (digest: string -> string, lines: seq<UserRecord>)
      ensures this.digest == digest && records == Reversed(lines)
    {
      this.digest := digest;
      records := [];
      new;
      for i := 0 to |lines|
        invariant records == Reversed(lines[..i]) && this.digest == digest
      {
        assert lines[..i + 1][..i] == lines[..i];
        records := [lines[i]] + records;
      }
      assert lines[..|lines|] == lines;
    }

    /** auth_verify: only the first record of that name decides. */
    method Verify(username: string, password: string) returns (rc: Status)
      ensures rc == if Verified(records, digest, username, password) then Ok else ErrAuth
    {
      var computed := digest(password);
      rc := ErrAuth;
      var cur := 0;
      while cur < |records|
        invariant 0 <= cur <= |records| && rc == ErrAuth
        invariant FirstMatch(records, username) == FirstMatch(records[cur..], username)
      {
        if records[cur].username == username {
          if records[cur].hash == computed {
            rc := Ok;
          }
          break;
        }
        cur := cur + 1;
      }
    }

    /** auth_is_admin */
    method IsAdmin(username: string) returns (admin: bool)
      ensures admin == Admin(records, username)
    {
      admin := false;
      var cur := 0;
      while cur < |records|
        invariant 0 <= cur <= |records| && !admin
        invariant FirstMatch(records, username) == FirstMatch(records[cur..], username)
      {
        if records[cur].username == username {
          admin := records[cur].admin;
          break;
        }
        cur := cur + 1;
      }
    }
  }
}

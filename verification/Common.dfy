/** Limits, status codes and string helpers shared by every component
    (include/common.h). A C character array is modelled by the string up to its
    terminator. */
module Common {
  const MAX_USERNAME_LEN: nat := 32
  const MAX_ROOM_NAME_LEN: nat := 32
  const MAX_MSG_LEN: nat := 512
  const MAX_LINE_LEN: nat := 2048
  const MAX_STAMP_LEN: nat := 32
  const MAX_CLIENTS: nat := 100
  const MAX_ROOM_HISTORY: nat := 100
  const MAX_ROOMS: nat := 64
  const DEFAULT_ROOM: string := "lobby"

  datatype Option<+T> = None | Some(value: T)

  datatype Status = Ok | Err | ErrProtocol | ErrDuplicate | ErrNotFound | ErrIo | ErrFull | ErrAuth

  /** strncpy into a zeroed array of n + 1 bytes. */
  function Clip(s: string, n: nat): (r: string)
    ensures r <= s && |r| <= n
    ensures |s| <= n ==> r == s
  {
    if |s| <= n then s else s[..n]
  }

  /** strchr as an index: the first position of c, or |s|. */
  function IndexOf(s: string, c: char): (i: nat)
    ensures i <= |s| && c !in s[..i]
    ensures i < |s| ==> s[i] == c
    ensures forall k :: 0 <= k < i ==> s[k] != c
  {
    if s == "" || s[0] == c then 0
    else
      var j := IndexOf(s[1..], c);
      assert s[..j + 1] == [s[0]] + s[1..][..j];
      j + 1
  }

  /** The first separator is the one after the prefix that is free of it. */
  lemma IndexOfSplit(a: string, c: char, b: string)
    requires c !in a
    ensures IndexOf(a + [c] + b, c) == |a|
  {
    var s := a + [c] + b;
    var i := IndexOf(s, c);
    assert s[|a|] == c;
    assert forall k :: 0 <= k < |a| ==> s[k] == a[k];
  }

  lemma IndexOfAbsent(s: string, c: char)
    ensures c !in s <==> IndexOf(s, c) == |s|
  {
    assert s[..|s|] == s;
  }

  /** trim_newline: drop every trailing carriage return and newline. */
  function Trimmed(s: string): (r: string)
    ensures r <= s
    ensures r != "" ==> r[|r| - 1] != '\n' && r[|r| - 1] != '\r'
    ensures forall i :: |r| <= i < |s| ==> s[i] == '\n' || s[i] == '\r'
  {
    if s != "" && (s[|s| - 1] == '\n' || s[|s| - 1] == '\r') then Trimmed(s[..|s| - 1]) else s
  }

  predicate IsTrim(s: string) {
    s != "" ==> s[|s| - 1] != '\n' && s[|s| - 1] != '\r'
  }

  /** Trimming undoes the newline that ends a line whose text is already trim. */
  lemma TrimmedLine(s: string)
    requires IsTrim(s)
    ensures Trimmed(s + "\n") == s
  {
    assert (s + "\n")[..|s|] == s;
  }

  lemma TrimmedLineEnd(s: string)
    ensures Trimmed(s + "\n") == Trimmed(s)
  {
    assert (s + "\n")[..|s|] == s;
  }

  lemma TrimmedIs(s: string)
    ensures Trimmed(s) == s <==> IsTrim(s)
  {
  }
}

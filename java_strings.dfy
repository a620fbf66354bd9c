/**
 * The two java.lang.String operations the table-name normalisation relies on:
 * toLowerCase(Locale.ENGLISH), restricted to ASCII letters, and split on a
 * single-character separator, which drops trailing empty strings.
 */
module JavaStrings {

  predicate IsUpper(c: char) {
    'A' <= c <= 'Z'
  }

  /** A string in which no ASCII capital letter occurs. */
  predicate IsLowerCase(s: string) {
    forall i :: 0 <= i < |s| ==> !IsUpper(s[i])
  }

  function LowerChar(c: char): (r: char)
    ensures !IsUpper(r)
    ensures IsUpper(c) ==> r as int - c as int == 'a' as int - 'A' as int
    ensures !IsUpper(c) ==> r == c
  {
    if IsUpper(c) then (c as int - 'A' as int + 'a' as int) as char else c
  }

  /** String.toLowerCase(Locale.ENGLISH) on the ASCII range. */
  function ToLower(s: string): (r: string)
    ensures |r| == |s|
    ensures IsLowerCase(r)
    ensures forall i :: 0 <= i < |s| ==> r[i] == LowerChar(s[i])
  {
    seq(|s|, i requires 0 <= i < |s| => LowerChar(s[i]))
  }

  /** A character other than an ASCII letter occurs in ToLower(s) only where it occurs in s. */
  lemma ToLowerKeeps(s: string, c: char)
    requires !IsUpper(c) && !('a' <= c <= 'z') && c !in s
    ensures c !in ToLower(s)
  {
    var r := ToLower(s);
    forall i | 0 <= i < |r|
      ensures r[i] != c
    {
      assert s[i] != c;
    }
  }

  lemma ToLowerIdempotent(s: string)
    ensures ToLower(ToLower(s)) == ToLower(s)
  {
  }

  /** Lower-casing leaves an already lower-case string as it is. */
  lemma ToLowerFixesLowerCase(s: string)
    requires IsLowerCase(s)
    ensures ToLower(s) == s
  {
  }

  /**
   * Every piece of s between separators, empty pieces included:
   * one more piece than there are separators.
   */
  function SplitAll(s: string, sep: char): (parts: seq<string>)
    ensures |parts| >= 1
    ensures forall p :: p in parts ==> sep !in p
    ensures sep !in s ==> parts == [s]
  {
    if s == [] then [""]
    else
      var rest := SplitAll(s[1..], sep);
      assert [s[0]] + s[1..] == s;
      if s[0] == sep then [""] + rest
      else [[s[0]] + rest[0]] + rest[1..]
  }

  /** The inverse of SplitAll: the pieces glued back with the separator. */
  function Join(parts: seq<string>, sep: char): string {
    if parts == [] then ""
    else if |parts| == 1 then parts[0]
    else parts[0] + [sep] + Join(parts[1..], sep)
  }

  lemma {:induction false} JoinSplitAll(s: string, sep: char)
    ensures Join(SplitAll(s, sep), sep) == s
  {
    if s != [] {
      var rest := SplitAll(s[1..], sep);
      JoinSplitAll(s[1..], sep);
      if s[0] == sep {
        assert SplitAll(s, sep) == [""] + rest;
        assert ([""] + rest)[1..] == rest;
      } else {
        var parts := [[s[0]] + rest[0]] + rest[1..];
        assert SplitAll(s, sep) == parts;
        if |rest| == 1 {
          assert Join(rest, sep) == rest[0];
        } else {
          assert parts[1..] == rest[1..];
          assert Join(rest, sep) == rest[0] + [sep] + Join(rest[1..], sep);
        }
      }
    }
  }

  function DropTrailingEmpty(parts: seq<string>): (r: seq<string>)
    ensures |r| <= |parts| && r == parts[..|r|]
    ensures forall k :: |r| <= k < |parts| ==> parts[k] == ""
    ensures r == [] || r[|r| - 1] != ""
  {
    if parts != [] && parts[|parts| - 1] == "" then DropTrailingEmpty(parts[..|parts| - 1])
    else parts
  }

  /**
   * String.split with a one-character, non-special separator: when the
   * separator does not occur the string itself is the only piece (even
   * the empty string); otherwise the pieces between separators, with
   * trailing empty pieces removed. No piece is trimmed. Together with
   * JoinSplitAll, the ensures pin the result down: a prefix of pieces
   * that rebuild s, cut after its last non-empty piece.
   */
  function Split(s: string, sep: char): (parts: seq<string>)
    ensures forall p :: p in parts ==> sep !in p
    ensures var all := SplitAll(s, sep);
            |parts| <= |all| && parts == all[..|parts|] &&
            (forall k :: |parts| <= k < |all| ==> all[k] == "")
    ensures sep in s ==> parts == [] || parts[|parts| - 1] != ""
    ensures sep !in s ==> parts == [s]
  {
    if sep !in s then [s] else DropTrailingEmpty(SplitAll(s, sep))
  }
}

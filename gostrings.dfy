/**
 * The functions of Go's `strings` package that the request gate uses, over `seq<char>`:
 * `TrimPrefix`, `Split` on a one-character separator (with its inverse `Join`), and
 * `EqualFold` restricted to ASCII letters.
 */
module GoStrings {

  predicate HasPrefix(s: string, prefix: string) {
    |prefix| <= |s| && s[..|prefix|] == prefix
  }

  /** strings.TrimPrefix: drops one leading occurrence of `prefix`, and nothing otherwise. */
  function TrimPrefix(s: string, prefix: string): (r: string)
    ensures HasPrefix(s, prefix) ==> prefix + r == s
    ensures !HasPrefix(s, prefix) ==> r == s
  {
    if HasPrefix(s, prefix) then
      assert s == s[..|prefix|] + s[|prefix|..];
      s[|prefix|..]
    else s
  }

  /** Trimming undoes prepending: `TrimPrefix(prefix + x, prefix) == x`, whatever `x` holds. */
  lemma TrimPrefixOfPrefixed(prefix: string, x: string)
    ensures TrimPrefix(prefix + x, prefix) == x
  {
    var s := prefix + x;
    assert s[..|prefix|] == prefix;
    var r := TrimPrefix(s, prefix);
    assert prefix + r == prefix + x;
    assert r == (prefix + r)[|prefix|..];
  }

  /** The position of the first `c` in `s`, or `|s|` when there is none (strings.IndexByte, with -1 read as |s|). */
  function IndexOf(s: string, c: char): (i: nat)
    ensures i <= |s|
    ensures i < |s| ==> s[i] == c
    ensures forall j :: 0 <= j < i ==> s[j] != c
    ensures i == |s| <==> c !in s
  {
    if s == [] then 0
    else if s[0] == c then 0
    else 1 + IndexOf(s[1..], c)
  }

  /** strings.Split(s, [sep]): the pieces between separators; `Split("", sep) == [""]`. */
  function Split(s: string, sep: char): (parts: seq<string>)
    ensures |parts| >= 1
    ensures sep !in s ==> parts == [s]
  {
    if s == [] then [[]]
    else
      var rest := Split(s[1..], sep);
      if s[0] == sep then [[]] + rest
      else assert s == [s[0]] + s[1..]; [[s[0]] + rest[0]] + rest[1..]
  }

  /** No piece of a split contains the separator. */
  lemma {:induction false} SplitPartsLackSeparator(s: string, sep: char)
    ensures forall i :: 0 <= i < |Split(s, sep)| ==> sep !in Split(s, sep)[i]
  {
    if s != [] {
      SplitPartsLackSeparator(s[1..], sep);
    }
  }

  /** strings.Join(parts, [sep]). */
  function Join(parts: seq<string>, sep: char): string {
    if |parts| == 0 then []
    else if |parts| == 1 then parts[0]
    else parts[0] + [sep] + Join(parts[1..], sep)
  }

  /** Joining the pieces back with the separator gives the original string. */
  lemma {:induction false} SplitJoin(s: string, sep: char)
    ensures Join(Split(s, sep), sep) == s
  {
    if s != [] {
      var rest := Split(s[1..], sep);
      SplitJoin(s[1..], sep);
      if s[0] == sep {
        assert Split(s, sep) == [[]] + rest;
        assert ([[]] + rest)[1..] == rest;
      } else {
        var parts := [[s[0]] + rest[0]] + rest[1..];
        assert Split(s, sep) == parts;
        if |rest| == 1 {
          assert Join(parts, sep) == [s[0]] + rest[0];
        } else {
          assert parts[1..] == rest[1..];
          assert Join(rest, sep) == rest[0] + [sep] + Join(rest[1..], sep);
          assert Join(parts, sep) == [s[0]] + rest[0] + [sep] + Join(rest[1..], sep);
        }
        assert s == [s[0]] + s[1..];
      }
    }
  }

  /** There are at least two pieces exactly when the separator occurs, and the first
      piece is everything before its first occurrence. */
  lemma {:induction false} SplitHead(s: string, sep: char)
    ensures |Split(s, sep)| >= 2 <==> sep in s
    ensures Split(s, sep)[0] == s[..IndexOf(s, sep)]
  {
    if s != [] {
      SplitHead(s[1..], sep);
      if s[0] != sep {
        assert s[..IndexOf(s, sep)] == [s[0]] + s[1..][..IndexOf(s[1..], sep)];
        assert sep in s <==> sep in s[1..];
      }
    }
  }

  /** ASCII lower-casing of one character; every other character is left alone. */
  function ToLowerAscii(c: char): (r: char)
    ensures 'A' <= c <= 'Z' ==> r as int == c as int + 32
    ensures !('A' <= c <= 'Z') ==> r == c
  {
    if 'A' <= c <= 'Z' then (c as int + 32) as char else c
  }

  /** The string lower-cased character by character. */
  function ToLower(s: string): (r: string)
    ensures |r| == |s|
    ensures forall i :: 0 <= i < |s| ==> r[i] == ToLowerAscii(s[i])
  {
    seq(|s|, i requires 0 <= i < |s| => ToLowerAscii(s[i]))
  }

  /** strings.EqualFold, comparing the two strings character by character after folding case. */
  function EqualFold(a: string, b: string): (r: bool)
    ensures r ==> |a| == |b|
    ensures a == b ==> r
  {
    if a == [] || b == [] then a == b
    else ToLowerAscii(a[0]) == ToLowerAscii(b[0]) && EqualFold(a[1..], b[1..])
  }

  /** Case-insensitive equality is plain equality of the lower-cased strings. */
  lemma {:induction false} EqualFoldIsLowerEquality(a: string, b: string)
    ensures EqualFold(a, b) <==> ToLower(a) == ToLower(b)
  {
    if a != [] && b != [] {
      EqualFoldIsLowerEquality(a[1..], b[1..]);
      assert ToLower(a) == [ToLowerAscii(a[0])] + ToLower(a[1..]);
      assert ToLower(b) == [ToLowerAscii(b[0])] + ToLower(b[1..]);
    }
  }
}

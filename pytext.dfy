/**
 * Python `str` operations used by the bearer-token parser, with Python's semantics:
 * `str.split(sep)` with an explicit one-character separator, `sep.join(parts)`,
 * `str.startswith(prefix)` and string repetition `ch * n`.
 */
module PyText {

  /** `s.startswith(prefix)`: `s` is at least as long as `prefix` and agrees with it position by position. */
  predicate StartsWith(s: string, prefix: string): (ok: bool)
    ensures ok <==> |prefix| <= |s| && forall i :: 0 <= i < |prefix| ==> s[i] == prefix[i]
  {
    |prefix| <= |s| && s[..|prefix|] == prefix
  }

  /** The number of times `c` occurs in `s`. */
  function Occurrences(s: string, c: char): nat {
    if |s| == 0 then 0 else (if s[0] == c then 1 else 0) + Occurrences(s[1..], c)
  }

  /** `sep.join(parts)` for a one-character separator. */
  function Join(parts: seq<string>, sep: char): string
  {
    if |parts| == 0 then ""
    else if |parts| == 1 then parts[0]
    else parts[0] + [sep] + Join(parts[1..], sep)
  }

  /**
   * `s.split(sep)` for a one-character separator: every occurrence of `sep` ends a field,
   * so adjacent separators give empty fields and the empty string gives one empty field.
   * There is one field more than separators and no field holds the separator; `JoinSplit`
   * and `SplitJoin` show that `Join` is its inverse.
   */
  function Split(s: string, sep: char): (parts: seq<string>)
    ensures |parts| == Occurrences(s, sep) + 1
    ensures forall i :: 0 <= i < |parts| ==> sep !in parts[i]
    decreases |s|
  {
    if |s| == 0 then [""]
    else
      var rest := Split(s[1..], sep);
      if s[0] == sep then [""] + rest
      else [[s[0]] + rest[0]] + rest[1..]
  }

  /** Joining the fields of a split with the separator gives back the string. */
  lemma {:induction false} JoinSplit(s: string, sep: char)
    ensures Join(Split(s, sep), sep) == s
    decreases |s|
  {
    if |s| > 0 {
      var rest := Split(s[1..], sep);
      JoinSplit(s[1..], sep);
      if s[0] == sep {
        JoinCons("", rest, sep);
      } else {
        JoinExtendHead(s[0], rest, sep);
      }
      assert s == [s[0]] + s[1..];
    }
  }

  /** Joining a leading field onto at least one more field puts one separator between them. */
  lemma JoinCons(head: string, tail: seq<string>, sep: char)
    requires |tail| >= 1
    ensures Join([head] + tail, sep) == head + [sep] + Join(tail, sep)
  {
    assert ([head] + tail)[1..] == tail;
  }

  /** Prefixing a character to the first field prefixes it to the join. */
  lemma JoinExtendHead(c: char, parts: seq<string>, sep: char)
    requires |parts| >= 1
    ensures Join([[c] + parts[0]] + parts[1..], sep) == [c] + Join(parts, sep)
  {
    if |parts| > 1 {
      JoinCons([c] + parts[0], parts[1..], sep);
      JoinCons(parts[0], parts[1..], sep);
      assert [parts[0]] + parts[1..] == parts;
    }
  }

  /** Joining with a separator the fields do not contain and splitting again gives back the fields. */
  lemma {:induction false} SplitJoin(parts: seq<string>, sep: char)
    requires |parts| >= 1
    requires forall i :: 0 <= i < |parts| ==> sep !in parts[i]
    ensures Split(Join(parts, sep), sep) == parts
  {
    if |parts| == 1 {
      SplitNoSeparator(parts[0], sep);
    } else {
      SplitJoin(parts[1..], sep);
      SplitAfterField(parts[0], Join(parts[1..], sep), sep);
      assert [parts[0]] + parts[1..] == parts;
    }
  }

  /** A string without the separator splits into itself alone. */
  lemma {:induction false} SplitNoSeparator(s: string, sep: char)
    requires sep !in s
    ensures Split(s, sep) == [s]
    decreases |s|
  {
    if |s| > 0 {
      assert sep !in s[1..];
      SplitNoSeparator(s[1..], sep);
      assert [s[0]] + s[1..] == s;
    }
  }

  /** A separator-free field followed by the separator is split off as the first field. */
  lemma {:induction false} SplitAfterField(field: string, rest: string, sep: char)
    requires sep !in field
    ensures Split(field + [sep] + rest, sep) == [field] + Split(rest, sep)
    decreases |field|
  {
    var s := field + [sep] + rest;
    if |field| == 0 {
      assert s[0] == sep && s[1..] == rest;
    } else {
      assert s[0] == field[0] != sep;
      assert s[1..] == field[1..] + [sep] + rest;
      SplitAfterField(field[1..], rest, sep);
      var tail := Split(s[1..], sep);
      assert tail[0] == field[1..] && tail[1..] == Split(rest, sep);
      assert Split(s, sep) == [[s[0]] + tail[0]] + tail[1..];
      assert [s[0]] + tail[0] == field;
    }
  }

  /**
   * The first field of a split is the longest separator-free prefix: it is a prefix of `s`,
   * and it either is all of `s` or is followed by the separator.
   */
  lemma FirstField(s: string, sep: char)
    ensures var head := Split(s, sep)[0];
      |head| <= |s| && s[..|head|] == head && sep !in head &&
      (|head| == |s| || s[|head|] == sep)
  {
    JoinSplit(s, sep);
    JoinStartsWithHead(Split(s, sep), sep);
  }

  /** A join starts with its first field, followed by the separator when more fields follow. */
  lemma JoinStartsWithHead(parts: seq<string>, sep: char)
    requires |parts| >= 1
    ensures var (head, joined) := (parts[0], Join(parts, sep));
      |head| <= |joined| && joined[..|head|] == head &&
      (|parts| == 1 ==> joined == head) &&
      (|parts| > 1 ==> |head| < |joined| && joined[|head|] == sep)
  {
    if |parts| > 1 {
      var joined := parts[0] + [sep] + Join(parts[1..], sep);
      assert Join(parts, sep) == joined;
      assert joined[..|parts[0]|] == parts[0];
      assert joined[|parts[0]|] == sep;
    }
  }

  /**
   * When the first separator of `s` sits at index `k - 1`, the second field of the split starts
   * at `k` and runs to the end of `s` or to the next separator.
   */
  lemma SecondField(s: string, k: nat, sep: char)
    requires 0 < k <= |s| && s[k - 1] == sep && sep !in s[..k - 1]
    ensures |Split(s, sep)| >= 2
    ensures var field := Split(s, sep)[1];
      k + |field| <= |s| && s[k..k + |field|] == field && sep !in field &&
      (k + |field| == |s| || s[k + |field|] == sep)
  {
    var word, rest := s[..k - 1], s[k..];
    assert s == word + [sep] + rest;
    SplitAfterField(word, rest, sep);
    var tail := Split(rest, sep);
    assert Split(s, sep) == [word] + tail;
    FirstField(rest, sep);
    var field := tail[0];
    assert Split(s, sep)[1] == field;
    SliceOfSuffix(s, k, |field|);
  }

  /** Slicing a suffix is slicing the whole string at shifted bounds. */
  lemma SliceOfSuffix(s: string, k: nat, n: nat)
    requires k + n <= |s|
    ensures s[k..][..n] == s[k..k + n]
    ensures k + n < |s| ==> s[k..][n] == s[k + n]
  {
  }

  /** `ch * n` in Python, for `n >= 0`. */
  function Repeat(ch: char, n: nat): (r: string)
    ensures |r| == n
    ensures forall i :: 0 <= i < n ==> r[i] == ch
  {
    if n == 0 then "" else [ch] + Repeat(ch, n - 1)
  }
}

/** The JavaScript string operations the core relies on: `indexOf` of one
    character, `split` on a one-character separator (`split(' ')` for the
    Authorization header, `split(':')` for the Host header) and the decimal
    rendering of a count in a template string. */
module Strings {
  import opened Common

  /** `s.indexOf(c)`, with -1 read as None. */
  function IndexOf(s: string, c: char): (r: Option<nat>)
    ensures r.Some? ==> r.value < |s| && s[r.value] == c && c !in s[..r.value]
    ensures r.None? <==> c !in s
  {
    if |s| == 0 then None
    else if s[0] == c then Some(0)
    else match IndexOf(s[1..], c)
      case None => None
      case Some(i) =>
        assert s[1..][..i] == s[1..i + 1];
        Some(i + 1)
  }

  /** `s.split(sep)`: the pieces between occurrences of `sep`; a string
      without `sep` (the empty string included) gives one piece. */
  function Split(s: string, sep: char): (parts: seq<string>)
    ensures |parts| >= 1
    ensures forall i :: 0 <= i < |parts| ==> sep !in parts[i]
    ensures |parts[0]| <= |s| && parts[0] == s[..|parts[0]|]
    ensures parts[0] == s || s[|parts[0]|] == sep
    decreases |s|
  {
    match IndexOf(s, sep)
    case None => [s]
    case Some(i) => [s[..i]] + Split(s[i + 1..], sep)
  }

  /** `parts.join(sep)`, the inverse of Split. */
  function Join(parts: seq<string>, sep: char): string
  {
    if |parts| == 0 then ""
    else if |parts| == 1 then parts[0]
    else parts[0] + [sep] + Join(parts[1..], sep)
  }

  lemma IndexOfAfterPrefix(a: string, sep: char, b: string)
    requires sep !in a
    ensures IndexOf(a + [sep] + b, sep) == Some(|a|)
  {
    var s := a + [sep] + b;
    assert s[|a|] == sep;
    assert forall j :: 0 <= j < |a| ==> s[j] == a[j];
  }

  /** Joining the pieces of a split gives back the original string. */
  lemma {:induction false} JoinSplit(s: string, sep: char)
    ensures Join(Split(s, sep), sep) == s
    decreases |s|
  {
    match IndexOf(s, sep)
    case None =>
    case Some(i) =>
      var rest := Split(s[i + 1..], sep);
      JoinSplit(s[i + 1..], sep);
      assert Split(s, sep) == [s[..i]] + rest;
      assert s == s[..i] + [sep] + s[i + 1..];
  }

  /** Splitting a join of separator-free pieces gives back the pieces. */
  lemma {:induction false} SplitJoin(parts: seq<string>, sep: char)
    requires |parts| >= 1
    requires forall i :: 0 <= i < |parts| ==> sep !in parts[i]
    ensures Split(Join(parts, sep), sep) == parts
    decreases |parts|
  {
    if |parts| == 1 {
      assert IndexOf(parts[0], sep).None?;
    } else {
      var tail := Join(parts[1..], sep);
      assert Join(parts, sep) == parts[0] + [sep] + tail;
      SplitJoin(parts[1..], sep);
      SplitAtFirst(parts[0], sep, tail);
      assert parts == [parts[0]] + parts[1..];
    }
  }

  lemma SplitAtFirst(a: string, sep: char, b: string)
    requires sep !in a
    ensures Split(a + [sep] + b, sep) == [a] + Split(b, sep)
  {
    var s := a + [sep] + b;
    IndexOfAfterPrefix(a, sep, b);
    assert s[..|a|] == a;
    assert s[|a| + 1..] == b;
  }

  /** A separator-free prefix followed by nothing or by the separator is
      the first piece. */
  lemma FirstPieceOfPrefix(a: string, sep: char, rest: string)
    requires sep !in a
    requires rest == [] || rest[0] == sep
    ensures Split(a + rest, sep)[0] == a
  {
    if rest == [] {
      assert a + rest == a;
      assert IndexOf(a, sep).None?;
    } else {
      assert a + rest == a + [sep] + rest[1..];
      SplitAtFirst(a, sep, rest[1..]);
    }
  }

  /** The second piece of a split: `a + sep + b + rest` with no `sep` in `a`
      or `b` and `rest` empty or starting with `sep`. */
  lemma SecondPiece(a: string, sep: char, b: string)
    requires sep !in a && sep !in b
    ensures |Split(a + [sep] + b, sep)| == 2
    ensures Split(a + [sep] + b, sep) == [a, b]
  {
    SplitJoin([a, b], sep);
    assert Join([a, b], sep) == a + [sep] + b;
  }

  /** The second piece of a split starts after the first occurrence of the
      separator and runs to the next occurrence or to the end. */
  lemma SecondPieceShape(s: string, sep: char)
    requires |Split(s, sep)| >= 2
    ensures IndexOf(s, sep).Some?
    ensures var i := IndexOf(s, sep).value;
            var second := Split(s, sep)[1];
            && i + 1 + |second| <= |s|
            && s[i + 1..i + 1 + |second|] == second
            && (i + 1 + |second| == |s| || s[i + 1 + |second|] == sep)
  {
    var i := IndexOf(s, sep).value;
    var tail := s[i + 1..];
    assert Split(s, sep) == [s[..i]] + Split(tail, sep);
    var second := Split(tail, sep)[0];
    assert s[i + 1..i + 1 + |second|] == tail[..|second|];
  }

  /** A length at least that of every string of a finite set. */
  ghost function LongestLength(keys: set<string>): (n: nat)
    ensures forall k :: k in keys ==> |k| <= n
  {
    if keys == {} then 0
    else
      var k :| k in keys;
      var m := LongestLength(keys - {k});
      if |k| > m then |k| else m
  }

  /** A finite table always leaves some string unused as a key: the
      database can always generate a new primary key. */
  lemma FreshKeyExists(keys: set<string>)
    ensures exists k: string :: k !in keys
  {
    var k := seq(LongestLength(keys) + 1, _ => 'x');
    assert k !in keys;
  }

  function DigitChar(d: nat): char
    requires d < 10
  {
    "0123456789"[d]
  }

  /** The decimal rendering of a count, as a template string prints it. */
  function NatToString(n: nat): (s: string)
    ensures |s| >= 1
    ensures forall i :: 0 <= i < |s| ==> '0' <= s[i] <= '9'
  {
    if n < 10 then [DigitChar(n)] else NatToString(n / 10) + [DigitChar(n % 10)]
  }
}

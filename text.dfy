/** The .NET string and LINQ operations the application relies on, on
    `string` = `seq<char>`. */
module Text {
  import opened Wrappers

  // ---------------------------------------------------------------------------
  // Whitespace and trimming
  // ---------------------------------------------------------------------------

  /** `char.IsWhiteSpace`: U+0009..U+000D, U+0020, U+0085, U+00A0 and the
      Unicode space, line and paragraph separators. */
  predicate IsWhiteSpace(c: char) {
    ('\t' <= c <= '\r') || c == ' ' || c == '\U{85}' || c == '\U{A0}' || c == '\U{1680}'
    || ('\U{2000}' <= c <= '\U{200A}') || c == '\U{2028}' || c == '\U{2029}'
    || c == '\U{202F}' || c == '\U{205F}' || c == '\U{3000}'
  }

  /** `string.IsNullOrWhiteSpace` on a non-null string. */
  predicate IsBlank(s: string) {
    forall i :: 0 <= i < |s| ==> IsWhiteSpace(s[i])
  }

  function TrimStart(s: string): (r: string)
    ensures |r| <= |s| && r == s[|s| - |r|..]
  {
    if |s| > 0 && IsWhiteSpace(s[0]) then TrimStart(s[1..]) else s
  }

  /** `TrimStart` drops exactly the leading whitespace ... */
  lemma {:induction false} TrimStartBlankPrefix(s: string)
    ensures forall i :: 0 <= i < |s| - |TrimStart(s)| ==> IsWhiteSpace(s[i])
    decreases |s|
  {
    if |s| > 0 && IsWhiteSpace(s[0]) {
      var rest := s[1..];
      TrimStartBlankPrefix(rest);
      forall i | 1 <= i < |s| - |TrimStart(s)| ensures IsWhiteSpace(s[i]) {
        assert s[i] == rest[i - 1];
      }
    }
  }

  /** ... and stops at a character that is not whitespace. */
  lemma {:induction false} TrimStartFirst(s: string)
    ensures |TrimStart(s)| > 0 ==> !IsWhiteSpace(TrimStart(s)[0])
    decreases |s|
  {
    if |s| > 0 && IsWhiteSpace(s[0]) {
      TrimStartFirst(s[1..]);
    }
  }

  lemma TrimStartShape(s: string)
    ensures IsBlank(s[..|s| - |TrimStart(s)|])
    ensures |TrimStart(s)| > 0 ==> !IsWhiteSpace(TrimStart(s)[0])
  {
    TrimStartBlankPrefix(s);
    TrimStartFirst(s);
    var k := |s| - |TrimStart(s)|;
    assert forall i :: 0 <= i < k ==> s[..k][i] == s[i];
  }

  function TrimEnd(s: string): (r: string)
    ensures |r| <= |s| && r == s[..|r|]
  {
    if |s| > 0 && IsWhiteSpace(s[|s| - 1]) then TrimEnd(s[..|s| - 1]) else s
  }

  /** `TrimEnd` drops exactly the trailing whitespace ... */
  lemma {:induction false} TrimEndBlankSuffix(s: string)
    ensures forall i :: |TrimEnd(s)| <= i < |s| ==> IsWhiteSpace(s[i])
    decreases |s|
  {
    if |s| > 0 && IsWhiteSpace(s[|s| - 1]) {
      var rest := s[..|s| - 1];
      TrimEndBlankSuffix(rest);
      forall i | |TrimEnd(s)| <= i < |s| - 1 ensures IsWhiteSpace(s[i]) {
        assert s[i] == rest[i];
      }
    }
  }

  /** ... and stops at a character that is not whitespace. */
  lemma {:induction false} TrimEndLast(s: string)
    ensures |TrimEnd(s)| > 0 ==> !IsWhiteSpace(TrimEnd(s)[|TrimEnd(s)| - 1])
    decreases |s|
  {
    if |s| > 0 && IsWhiteSpace(s[|s| - 1]) {
      TrimEndLast(s[..|s| - 1]);
    }
  }

  lemma TrimEndShape(s: string)
    ensures IsBlank(s[|TrimEnd(s)|..])
    ensures |TrimEnd(s)| > 0 ==> !IsWhiteSpace(TrimEnd(s)[|TrimEnd(s)| - 1])
  {
    TrimEndBlankSuffix(s);
    TrimEndLast(s);
    var k := |TrimEnd(s)|;
    assert forall i :: 0 <= i < |s| - k ==> s[k..][i] == s[k + i];
  }

  /** How many leading whitespace characters `Trim` drops. */
  function TrimOffset(s: string): nat
  {
    |s| - |TrimStart(s)|
  }

  /** `string.Trim()`: the text between the leading and the trailing
      whitespace (see `TrimShape`). */
  function Trim(s: string): (r: string)
    ensures TrimOffset(s) + |r| <= |s| && r == s[TrimOffset(s)..TrimOffset(s) + |r|]
  {
    TrimEnd(TrimStart(s))
  }

  /** `Trim` is empty exactly on a blank text ... */
  lemma TrimEmptyIffBlank(s: string)
    ensures |Trim(s)| == 0 <==> IsBlank(s)
  {
    var t := TrimStart(s);
    var o := |s| - |t|;
    TrimStartShape(s);
    TrimEndShape(t);
    if |Trim(s)| == 0 {
      assert t[0..] == t;
      assert |t| == 0;
      assert s[..o] == s;
    } else {
      assert Trim(s)[0] == s[o];
    }
  }

  /** ... and otherwise starts ... */
  lemma TrimFirst(s: string)
    requires |Trim(s)| > 0
    ensures !IsWhiteSpace(Trim(s)[0])
  {
    var t := TrimStart(s);
    var r := TrimEnd(t);
    TrimStartFirst(s);
    assert r[0] == t[0];
  }

  /** ... and ends with a non-whitespace character. */
  lemma TrimLast(s: string)
    requires |Trim(s)| > 0
    ensures !IsWhiteSpace(Trim(s)[|Trim(s)| - 1])
  {
    TrimEndLast(TrimStart(s));
  }

  lemma TrimShape(s: string)
    ensures |Trim(s)| == 0 <==> IsBlank(s)
    ensures |Trim(s)| > 0 ==> !IsWhiteSpace(Trim(s)[0]) && !IsWhiteSpace(Trim(s)[|Trim(s)| - 1])
  {
    TrimEmptyIffBlank(s);
    if |Trim(s)| > 0 {
      TrimFirst(s);
      TrimLast(s);
    }
  }

  lemma TrimmedHasNo(s: string, c: char)
    requires c !in s
    ensures c !in Trim(s)
  {
    var r := Trim(s);
    var o := TrimOffset(s);
    forall k | 0 <= k < |r| ensures r[k] != c {
      assert r[k] == s[o + k];
    }
  }

  lemma TrimIdempotent(s: string)
    ensures Trim(Trim(s)) == Trim(s)
  {
    var r := Trim(s);
    TrimShape(s);
    if |r| > 0 {
      assert TrimStart(r) == r;
      assert TrimEnd(r) == r;
    }
  }

  /** A text with no whitespace at either end is its own trim. */
  lemma TrimUnchanged(s: string)
    requires |s| > 0 && !IsWhiteSpace(s[0]) && !IsWhiteSpace(s[|s| - 1])
    ensures Trim(s) == s
  {
    assert TrimStart(s) == s;
    assert TrimEnd(s) == s;
  }

  // ---------------------------------------------------------------------------
  // Split and Join on one separator character
  // ---------------------------------------------------------------------------

  /** `s.Split(sep)`: every piece between separators, empty pieces included;
      there is always one piece more than separators. */
  function Split(s: string, sep: char): (r: seq<string>)
    ensures |r| >= 1
    ensures forall k :: 0 <= k < |r| ==> sep !in r[k]
    decreases |s|
  {
    if |s| == 0 then [""]
    else
      var rest := Split(s[1..], sep);
      if s[0] == sep then [""] + rest
      else [[s[0]] + rest[0]] + rest[1..]
  }

  /** `string.Join(sep, parts)`. */
  function Join(parts: seq<string>, sep: char): string
  {
    if |parts| == 0 then ""
    else if |parts| == 1 then parts[0]
    else parts[0] + [sep] + Join(parts[1..], sep)
  }

  lemma {:induction false} SplitWithout(s: string, sep: char)
    requires sep !in s
    ensures Split(s, sep) == [s]
    decreases |s|
  {
    if |s| > 0 {
      SplitWithout(s[1..], sep);
      assert [s[0]] + s[1..] == s;
    }
  }

  lemma {:induction false} SplitAtSeparator(a: string, b: string, sep: char)
    requires sep !in a
    ensures Split(a + [sep] + b, sep) == [a] + Split(b, sep)
    decreases |a|
  {
    var s := a + [sep] + b;
    if |a| == 0 {
      assert s[0] == sep && s[1..] == b;
    } else {
      assert s[0] == a[0] && s[1..] == a[1..] + [sep] + b;
      SplitAtSeparator(a[1..], b, sep);
      assert [a[0]] + a[1..] == a;
    }
  }

  /** Splitting a join of separator-free pieces gives the pieces back. */
  lemma {:induction false} SplitJoin(parts: seq<string>, sep: char)
    requires |parts| >= 1
    requires forall k :: 0 <= k < |parts| ==> sep !in parts[k]
    ensures Split(Join(parts, sep), sep) == parts
  {
    if |parts| == 1 {
      SplitWithout(parts[0], sep);
    } else {
      SplitJoin(parts[1..], sep);
      SplitAtSeparator(parts[0], Join(parts[1..], sep), sep);
      assert [parts[0]] + parts[1..] == parts;
    }
  }

  /** Joining the pieces of a split with the same separator restores the text. */
  lemma {:induction false} JoinSplit(s: string, sep: char)
    ensures Join(Split(s, sep), sep) == s
    decreases |s|
  {
    if |s| > 0 {
      JoinSplit(s[1..], sep);
      var rest := Split(s[1..], sep);
      if s[0] != sep {
        if |rest| == 1 {
          assert [s[0]] + s[1..] == s;
        } else {
          assert Join([[s[0]] + rest[0]] + rest[1..], sep)
              == [s[0]] + (rest[0] + [sep] + Join(rest[1..], sep));
          assert [s[0]] + s[1..] == s;
        }
      } else {
        assert Join([""] + rest, sep) == [sep] + Join(rest, sep);
        assert [s[0]] + s[1..] == s;
      }
    }
  }

  // ---------------------------------------------------------------------------
  // Ordinal comparisons
  // ---------------------------------------------------------------------------

  predicate StartsWith(s: string, prefix: string) {
    |prefix| <= |s| && s[..|prefix|] == prefix
  }

  predicate EndsWith(s: string, suffix: string) {
    |suffix| <= |s| && s[|s| - |suffix|..] == suffix
  }

  /** `s.Contains(sub)` (ordinal, case-sensitive). */
  predicate Contains(s: string, sub: string)
    decreases |s|
  {
    StartsWith(s, sub) || (|s| > 0 && Contains(s[1..], sub))
  }

  /** A text contains every piece it was assembled from. */
  lemma {:induction false} ContainsMiddle(before: string, sub: string, after: string)
    ensures Contains(before + sub + after, sub)
    decreases |before|
  {
    if before == [] {
      assert before + sub + after == sub + after;
      assert (sub + after)[..|sub|] == sub;
    } else {
      assert (before + sub + after)[1..] == before[1..] + sub + after;
      ContainsMiddle(before[1..], sub, after);
    }
  }

  function AsciiUpper(c: char): char {
    if 'a' <= c <= 'z' then (c as int - 32) as char else c
  }

  /** `s.StartsWith(prefix, StringComparison.OrdinalIgnoreCase)` for an
      ASCII prefix. */
  predicate StartsWithIgnoreCase(s: string, prefix: string) {
    |prefix| <= |s| && forall i :: 0 <= i < |prefix| ==> AsciiUpper(s[i]) == AsciiUpper(prefix[i])
  }

  /** `char.ToLower` on Latin-1 (ASCII and U+00C0..U+00DE); other characters
      are kept. */
  function LowerChar(c: char): char {
    if 'A' <= c <= 'Z' || ('\U{C0}' <= c <= '\U{DE}' && c != '\U{D7}') then (c as int + 32) as char else c
  }

  /** `string.ToLower()`, character by character. */
  function ToLower(s: string): (r: string)
    ensures |r| == |s| && forall i :: 0 <= i < |s| ==> r[i] == LowerChar(s[i])
  {
    if s == [] then [] else [LowerChar(s[0])] + ToLower(s[1..])
  }

  /** Lower-casing twice is lower-casing once. */
  lemma ToLowerIdempotent(s: string)
    ensures ToLower(ToLower(s)) == ToLower(s)
  {
  }

  /** Two texts that differ at most in the case of their letters. */
  predicate SameUpToCase(a: string, b: string) {
    |a| == |b| && forall i :: 0 <= i < |a| ==> LowerChar(a[i]) == LowerChar(b[i])
  }

  /** Texts that differ only in letter case lower-case to the same text. */
  lemma SameUpToCaseLowersEqual(a: string, b: string)
    requires SameUpToCase(a, b)
    ensures ToLower(a) == ToLower(b)
  {
    assert forall i :: 0 <= i < |a| ==> ToLower(a)[i] == ToLower(b)[i];
  }

  /** `int.ToString()` for a non-negative value. */
  function NatToString(n: nat): (r: string)
    ensures |r| >= 1 && forall i :: 0 <= i < |r| ==> '0' <= r[i] <= '9'
  {
    var d := ['0' + (n % 10) as char];
    if n < 10 then d else NatToString(n / 10) + d
  }

  // ---------------------------------------------------------------------------
  // LINQ Skip and Take
  // ---------------------------------------------------------------------------

  /** `Enumerable.Take(s, n)`: the first `n` items, all of them when there are
      fewer, none when `n <= 0`. */
  function Take<T>(s: seq<T>, n: int): (r: seq<T>)
    ensures |r| == if n <= 0 then 0 else Min(n, |s|)
    ensures r == s[..|r|]
  {
    if n <= 0 then [] else if n >= |s| then s else s[..n]
  }

  /** `Enumerable.Skip(s, n)`: all but the first `n` items; a count `<= 0`
      skips nothing. */
  function Skip<T>(s: seq<T>, n: int): (r: seq<T>)
    ensures |r| == if n <= 0 then |s| else |s| - Min(n, |s|)
    ensures r == s[|s| - |r|..]
  {
    if n <= 0 then s else if n >= |s| then [] else s[n..]
  }

  // ---------------------------------------------------------------------------
  // Splitting a model answer into trimmed lines
  // ---------------------------------------------------------------------------

  /** The pieces kept by `Split('\n', StringSplitOptions.RemoveEmptyEntries)`. */
  function NonEmpty(pieces: seq<string>): (r: seq<string>)
  {
    if pieces == [] then []
    else if pieces[0] == "" then NonEmpty(pieces[1..])
    else [pieces[0]] + NonEmpty(pieces[1..])
  }

  /** `.Where(line => !string.IsNullOrWhiteSpace(line)).Select(line => line.Trim())`. */
  function TrimmedNonBlank(lines: seq<string>): (r: seq<string>)
  {
    if lines == [] then []
    else if IsBlank(lines[0]) then TrimmedNonBlank(lines[1..])
    else [Trim(lines[0])] + TrimmedNonBlank(lines[1..])
  }

  /** `text.Split('\n', RemoveEmptyEntries).Where(non-blank).Select(Trim).Take(count)`:
      at most `count` entries, each a trimmed non-blank line of `text`, in line order. */
  function TrimmedLines(text: string, count: nat): (r: seq<string>)
    ensures |r| <= count
    ensures r == Take(TrimmedNonBlank(Split(text, '\n')), count)
    ensures forall k :: 0 <= k < |r| ==> IsCleanLine(r[k])
  {
    var pieces := Split(text, '\n');
    NonEmptyThenTrimmed(pieces);
    TrimmedNonBlankShape(pieces);
    Take(TrimmedNonBlank(NonEmpty(pieces)), count)
  }

  /** Dropping the empty pieces first changes nothing: an empty piece is blank. */
  lemma {:induction false} NonEmptyThenTrimmed(pieces: seq<string>)
    ensures TrimmedNonBlank(NonEmpty(pieces)) == TrimmedNonBlank(pieces)
  {
    if pieces != [] {
      NonEmptyThenTrimmed(pieces[1..]);
      if pieces[0] != "" {
        assert NonEmpty(pieces) == [pieces[0]] + NonEmpty(pieces[1..]);
        assert ([pieces[0]] + NonEmpty(pieces[1..]))[1..] == NonEmpty(pieces[1..]);
      }
    }
  }

  /** A trimmed non-blank line of a separator-free text. */
  predicate IsCleanLine(e: string) {
    |e| > 0 && Trim(e) == e && '\n' !in e
  }

  /** Every entry is a non-empty trimmed line; no entry holds a separator
      the lines did not hold. */
  lemma {:induction false} TrimmedNonBlankShape(lines: seq<string>)
    requires forall k :: 0 <= k < |lines| ==> '\n' !in lines[k]
    ensures forall k :: 0 <= k < |TrimmedNonBlank(lines)| ==> IsCleanLine(TrimmedNonBlank(lines)[k])
  {
    if lines != [] {
      TrimmedNonBlankShape(lines[1..]);
      if !IsBlank(lines[0]) {
        TrimShape(lines[0]);
        TrimIdempotent(lines[0]);
        TrimmedHasNo(lines[0], '\n');
        assert IsCleanLine(Trim(lines[0]));
      }
    }
  }
}

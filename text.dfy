/** The .NET string operations the core relies on, stated on `seq<char>`:
    case-insensitive comparison, char.IsWhiteSpace, string.Join,
    string.Split(string), StringReader.ReadLine, int.ToString and int.TryParse. */
module Text {
  import opened Wrappers

  const Int32Min: int := -0x8000_0000
  const Int32Max: int := 0x7FFF_FFFF

  // ---------------------------------------------------------------------------
  // Characters

  /** char.IsWhiteSpace: the Unicode space separators, the line and paragraph
      separators, U+0009..U+000D and U+0085. */
  predicate IsWhiteSpace(c: char) {
    || ('\t' <= c <= '\r')
    || c == ' ' || c == '\U{0085}' || c == '\U{00A0}' || c == '\U{1680}'
    || ('\U{2000}' <= c <= '\U{200A}')
    || c == '\U{2028}' || c == '\U{2029}' || c == '\U{202F}' || c == '\U{205F}' || c == '\U{3000}'
  }

  /** Every character is white space (the empty string included). */
  predicate IsBlank(s: string) {
    forall i :: 0 <= i < |s| ==> IsWhiteSpace(s[i])
  }

  /** string.IsNullOrWhiteSpace */
  predicate IsNullOrWhiteSpace(s: Option<string>) {
    s.None? || IsBlank(s.value)
  }

  /** Case folding used for the InvariantCultureIgnoreCase comparisons. */
  function Fold(c: char): (d: char)
    ensures !('A' <= d <= 'Z')
    ensures d == c || ('A' <= c <= 'Z' && 'a' <= d <= 'z')
  {
    if 'A' <= c <= 'Z' then (c as int + 32) as char else c
  }

  function FoldAll(s: string): (r: string)
    ensures |r| == |s|
    ensures forall i :: 0 <= i < |s| ==> r[i] == Fold(s[i])
  {
    seq(|s|, i requires 0 <= i < |s| => Fold(s[i]))
  }

  predicate EqualsIgnoreCase(a: string, b: string) {
    FoldAll(a) == FoldAll(b)
  }

  /** s.StartsWith(prefix, StringComparison.InvariantCultureIgnoreCase) */
  predicate StartsWithIgnoreCase(s: string, prefix: string) {
    |prefix| <= |s| && EqualsIgnoreCase(s[..|prefix|], prefix)
  }

  /** s.EndsWith(suffix, StringComparison.InvariantCultureIgnoreCase) */
  predicate EndsWithIgnoreCase(s: string, suffix: string) {
    |suffix| <= |s| && EqualsIgnoreCase(s[|s| - |suffix|..], suffix)
  }

  /** t occurs in s at position i, ignoring case. */
  predicate OccursAtIgnoreCase(s: string, t: string, i: int) {
    0 <= i && i + |t| <= |s| && EqualsIgnoreCase(s[i..i + |t|], t)
  }

  /** s.Contains(t, StringComparison.InvariantCultureIgnoreCase) */
  predicate ContainsIgnoreCase(s: string, t: string) {
    exists i :: 0 <= i <= |s| - |t| && OccursAtIgnoreCase(s, t, i)
  }

  /** t occurs in s at position j. */
  predicate OccursAt(s: string, t: string, j: int) {
    0 <= j && j + |t| <= |s| && s[j..j + |t|] == t
  }

  /** Ordinal s.Contains(t). */
  predicate Contains(s: string, t: string) {
    exists j :: 0 <= j <= |s| - |t| && OccursAt(s, t, j)
  }

  lemma OccursAtTail(s: string, t: string, j: int)
    requires |s| > 0 && j >= 0
    ensures OccursAt(s[1..], t, j) <==> OccursAt(s, t, j + 1)
  {
    if 0 <= j && j + 1 + |t| <= |s| {
      assert s[1..][j..j + |t|] == s[j + 1..j + 1 + |t|];
    }
  }

  /** Folding leaves every character that is not an upper-case letter alone. */
  lemma FoldAllIdentity(s: string)
    requires forall i :: 0 <= i < |s| ==> !('A' <= s[i] <= 'Z')
    ensures FoldAll(s) == s
  {
  }

  /** If a folded character equals a character that is no lower-case letter,
      the original was that very character. */
  lemma {:induction false} FoldedEqualsLiteral(a: string, b: string)
    requires forall i :: 0 <= i < |b| ==> !('a' <= b[i] <= 'z') && !('A' <= b[i] <= 'Z')
    requires EqualsIgnoreCase(a, b)
    ensures a == b
  {
    FoldAllIdentity(b);
    assert |a| == |b|;
    forall i | 0 <= i < |a| ensures a[i] == b[i] {
      assert FoldAll(a)[i] == FoldAll(b)[i];
    }
  }

  // ---------------------------------------------------------------------------
  // string.Join and string.Split(string)

  /** string.Join(sep, xs) */
  function Join(sep: string, xs: seq<string>): string {
    if |xs| == 0 then ""
    else if |xs| == 1 then xs[0]
    else xs[0] + sep + Join(sep, xs[1..])
  }

  /** s.IndexOf(t): the first position at which t occurs in s. */
  function IndexOf(s: string, t: string): (r: Option<nat>)
    decreases |s|
    ensures r.Some? ==> r.value + |t| <= |s|
  {
    if |s| < |t| then None
    else if s[..|t|] == t then Some(0)
    else
      match IndexOf(s[1..], t)
      case None => None
      case Some(i) => Some(i + 1)
  }

  /** The position found is an occurrence of t. */
  lemma {:induction false} IndexOfFound(s: string, t: string)
    decreases |s|
    ensures IndexOf(s, t).Some? ==> OccursAt(s, t, IndexOf(s, t).value)
  {
    if |s| >= |t| && s[..|t|] != t && IndexOf(s[1..], t).Some? {
      IndexOfFound(s[1..], t);
      OccursAtTail(s, t, IndexOf(s[1..], t).value);
    }
  }

  /** The position found is an occurrence with none before it, and there is
      none exactly when t does not occur in s. */
  lemma {:induction false} IndexOfSpec(s: string, t: string)
    decreases |s|
    ensures IndexOf(s, t).Some? ==> OccursAt(s, t, IndexOf(s, t).value)
    ensures IndexOf(s, t).Some? ==> forall j :: 0 <= j < IndexOf(s, t).value ==> !OccursAt(s, t, j)
    ensures IndexOf(s, t).None? <==> !Contains(s, t)
  {
    if |s| >= |t| && s[..|t|] != t {
      assert !OccursAt(s, t, 0);
      IndexOfSpec(s[1..], t);
      match IndexOf(s[1..], t)
      case None =>
        forall j ensures !OccursAt(s, t, j) {
          if j > 0 { OccursAtTail(s, t, j - 1); }
        }
      case Some(i) =>
        OccursAtTail(s, t, i);
        forall j | 0 <= j < i + 1 ensures !OccursAt(s, t, j) {
          if j > 0 { OccursAtTail(s, t, j - 1); }
        }
    } else if |s| >= |t| {
      assert OccursAt(s, t, 0);
    }
  }

  /** s.Split(sep): the pieces between the non-overlapping occurrences of sep,
      scanning from the left; an empty separator leaves the string whole. */
  function Split(s: string, sep: string): (r: seq<string>)
    decreases |s|, 1
    ensures |r| >= 1
  {
    if |sep| == 0 then [s] else SplitAtFound(s, sep, IndexOf(s, sep))
  }

  /** The split of s once the first occurrence of sep is known. */
  function SplitAtFound(s: string, sep: string, found: Option<nat>): (r: seq<string>)
    requires |sep| > 0
    requires found.Some? ==> found.value + |sep| <= |s|
    decreases |s|, 0
    ensures |r| >= 1
  {
    match found
    case None => [s]
    case Some(i) => [s[..i]] + Split(s[i + |sep|..], sep)
  }

  /** Split in the case where the separator occurs at position i. */
  lemma SplitAt(s: string, sep: string, i: nat)
    requires |sep| > 0 && IndexOf(s, sep) == Some(i)
    ensures i + |sep| <= |s|
    ensures Split(s, sep) == [s[..i]] + Split(s[i + |sep|..], sep)
  {
    SplitUnfold(s, sep);
    SplitAtSome(s, sep, i);
  }

  lemma SplitAtSome(s: string, sep: string, i: nat)
    requires |sep| > 0 && i + |sep| <= |s|
    ensures SplitAtFound(s, sep, Some(i)) == [s[..i]] + Split(s[i + |sep|..], sep)
  {
  }

  lemma SplitUnfold(s: string, sep: string)
    requires |sep| > 0
    ensures Split(s, sep) == SplitAtFound(s, sep, IndexOf(s, sep))
  {
  }

  lemma Splice(s: string, i: nat, j: nat)
    requires i <= j <= |s|
    ensures s == s[..i] + s[i..j] + s[j..]
  {
  }

  lemma JoinCons(sep: string, x: string, xs: seq<string>)
    requires |xs| >= 1
    ensures Join(sep, [x] + xs) == x + sep + Join(sep, xs)
  {
    assert ([x] + xs)[1..] == xs;
  }

  /** Joining the pieces of a split with the separator gives back the text. */
  lemma {:induction false} JoinSplit(s: string, sep: string)
    ensures Join(sep, Split(s, sep)) == s
    decreases |s|
  {
    if |sep| > 0 && IndexOf(s, sep).Some? {
      var i := IndexOf(s, sep).value;
      SplitAt(s, sep, i);
      IndexOfFound(s, sep);
      var rest := s[i + |sep|..];
      JoinSplit(rest, sep);
      JoinCons(sep, s[..i], Split(rest, sep));
      Splice(s, i, i + |sep|);
    }
  }

  lemma OccursInPrefix(s: string, t: string, i: nat, j: int)
    requires i <= |s| && OccursAt(s[..i], t, j)
    ensures OccursAt(s, t, j)
  {
    assert s[..i][j..j + |t|] == s[j..j + |t|];
  }

  /** No piece of a split contains the (non-empty) separator. */
  lemma {:induction false} SplitPiecesAvoidSeparator(s: string, sep: string)
    requires |sep| > 0
    ensures forall k :: 0 <= k < |Split(s, sep)| ==> !Contains(Split(s, sep)[k], sep)
    decreases |s|
  {
    IndexOfSpec(s, sep);
    if IndexOf(s, sep).Some? {
      var i := IndexOf(s, sep).value;
      SplitAt(s, sep, i);
      var rest := s[i + |sep|..];
      SplitPiecesAvoidSeparator(rest, sep);
      var head := s[..i];
      if Contains(head, sep) {
        var j :| 0 <= j <= |head| - |sep| && OccursAt(head, sep, j);
        OccursInPrefix(s, sep, i, j);
        assert false;
      }
      var pieces := Split(s, sep);
      forall k | 0 <= k < |pieces| ensures !Contains(pieces[k], sep) {
        if k > 0 {
          assert pieces[k] == Split(rest, sep)[k - 1];
        }
      }
    }
  }

  // ---------------------------------------------------------------------------
  // StringReader.ReadLine

  predicate IsLineBreak(c: char) {
    c == '\r' || c == '\n'
  }

  /** Index of the first line-break character, or |s| when there is none. */
  function LineEnd(s: string): (i: nat)
    ensures i <= |s|
    ensures i < |s| ==> IsLineBreak(s[i])
    ensures forall j :: 0 <= j < i ==> !IsLineBreak(s[j])
  {
    if |s| == 0 || IsLineBreak(s[0]) then 0 else 1 + LineEnd(s[1..])
  }

  /** The lines that repeated StringReader.ReadLine calls return before null:
      "\r\n", "\r" and "\n" each end a line, and a final line break does not
      start an extra empty line. */
  function Lines(s: string): (r: seq<string>)
    decreases |s|
    ensures forall k, j :: 0 <= k < |r| && 0 <= j < |r[k]| ==> !IsLineBreak(r[k][j])
  {
    if |s| == 0 then []
    else
      var i := LineEnd(s);
      if i == |s| then [s]
      else if s[i] == '\r' && i + 1 < |s| && s[i + 1] == '\n' then [s[..i]] + Lines(s[i + 2..])
      else [s[..i]] + Lines(s[i + 1..])
  }

  // ---------------------------------------------------------------------------
  // int.ToString and int.TryParse

  predicate IsDigit(c: char) {
    '0' <= c <= '9'
  }

  predicate AllDigits(s: string) {
    forall i :: 0 <= i < |s| ==> IsDigit(s[i])
  }

  function DigitChar(d: nat): (c: char)
    requires d < 10
    ensures IsDigit(c)
  {
    ('0' as int + d) as char
  }

  /** Decimal digits of a natural number, most significant first, no leading zeros. */
  function NatToString(n: nat): (r: string)
    ensures |r| >= 1 && AllDigits(r)
    ensures n >= 10 ==> r[0] != '0'
  {
    if n < 10 then [DigitChar(n)] else NatToString(n / 10) + [DigitChar(n % 10)]
  }

  /** n.ToString(): an optional '-' followed by the decimal digits. */
  function IntToString(n: int): (r: string)
    ensures |r| >= 1
    ensures n >= 0 ==> AllDigits(r)
    ensures n < 0 ==> r[0] == '-' && AllDigits(r[1..])
  {
    if n < 0 then "-" + NatToString(-n) else NatToString(n)
  }

  /** The value of a string of decimal digits. */
  function DigitsValue(ds: string): nat
    requires AllDigits(ds)
  {
    if |ds| == 0 then 0
    else DigitsValue(ds[..|ds| - 1]) * 10 + (ds[|ds| - 1] as int - '0' as int)
  }

  lemma {:induction false} DigitsValueOfNatToString(n: nat)
    ensures DigitsValue(NatToString(n)) == n
  {
    if n >= 10 {
      DigitsValueOfNatToString(n / 10);
      var s := NatToString(n);
      assert s[..|s| - 1] == NatToString(n / 10);
    }
  }

  /** The white space that NumberStyles.Integer allows around a number. */
  predicate IsNumberWhite(c: char) {
    ('\t' <= c <= '\r') || c == ' '
  }

  function TrimStartNumberWhite(s: string): (r: string)
    ensures |r| <= |s| && r == s[|s| - |r|..]
    ensures |r| > 0 ==> !IsNumberWhite(r[0])
  {
    if |s| > 0 && IsNumberWhite(s[0]) then TrimStartNumberWhite(s[1..]) else s
  }

  function TrimEndNumberWhite(s: string): (r: string)
    ensures |r| <= |s| && r == s[..|r|]
    ensures |r| > 0 ==> !IsNumberWhite(r[|r| - 1])
  {
    if |s| > 0 && IsNumberWhite(s[|s| - 1]) then TrimEndNumberWhite(s[..|s| - 1]) else s
  }

  /** int.TryParse(s, out v) with NumberStyles.Integer: optional white space,
      an optional sign, one or more decimal digits, optional white space, and
      a value in the Int32 range. */
  function TryParseInt(s: string): (r: Option<int>)
    ensures r.Some? ==> Int32Min <= r.value <= Int32Max
  {
    var t := TrimEndNumberWhite(TrimStartNumberWhite(s));
    var signed := |t| > 0 && (t[0] == '-' || t[0] == '+');
    var body := if signed then t[1..] else t;
    if |body| == 0 || !AllDigits(body) then None
    else
      var v: int := if signed && t[0] == '-' then -(DigitsValue(body) as int) else DigitsValue(body);
      if Int32Min <= v <= Int32Max then Some(v) else None
  }

  /** int.TryParse reads back what int.ToString wrote, across the Int32 range. */
  lemma TryParseIntToString(n: int)
    requires Int32Min <= n <= Int32Max
    ensures TryParseInt(IntToString(n)) == Some(n)
  {
    var s := IntToString(n);
    assert !IsNumberWhite(s[0]);
    assert TrimStartNumberWhite(s) == s;
    assert !IsNumberWhite(s[|s| - 1]);
    assert TrimEndNumberWhite(s) == s;
    if n < 0 {
      DigitsValueOfNatToString(-n);
      assert s[1..] == NatToString(-n);
    } else {
      DigitsValueOfNatToString(n);
    }
  }
}

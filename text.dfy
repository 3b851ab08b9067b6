/**
 * The Python string operations the generators are built from: `str.find`,
 * `in`, `split`, `join`, `replace`, `strip`, `lower` and the decimal
 * rendering of an `int` inside an f-string, as functions on `string`,
 * together with the facts about them that the rest of the model uses.
 */
module Text {
  import opened Wrappers

  /** A prefix one element longer is the shorter prefix and that element. */
  lemma PrefixSnoc<T>(s: seq<T>, i: nat)
    requires i < |s|
    ensures s[..i + 1] == s[..i] + [s[i]]
  {
  }

  // ---------------------------------------------------------------------
  // Searching

  /** `t` occurs in `s` starting at index `i`. */
  predicate OccursAt(s: string, t: string, i: nat) {
    i + |t| <= |s| && s[i..i + |t|] == t
  }

  predicate StartsWith(s: string, t: string) {
    |t| <= |s| && s[..|t|] == t
  }

  predicate EndsWith(s: string, t: string) {
    |t| <= |s| && s[|s| - |t|..] == t
  }

  /** A concatenation starts with its first part and ends with its last. */
  lemma ConcatEnds(a: string, b: string)
    ensures StartsWith(a + b, a) && EndsWith(a + b, b)
  {
    assert (a + b)[..|a|] == a;
    assert (a + b)[|a|..] == b;
  }

  /** A prefix of a prefix is a prefix. */
  lemma StartsWithTransitive(s: string, t: string, u: string)
    requires StartsWith(s, t) && StartsWith(t, u)
    ensures StartsWith(s, u)
  {
    assert s[..|u|] == s[..|t|][..|u|];
  }

  /** Index of the first occurrence of `t` in `s` (Python's `s.find(t)`, with None for -1). */
  function Find(s: string, t: string): (r: Option<nat>)
    ensures r.Some? ==> r.value + |t| <= |s|
    decreases |s|
  {
    if |s| < |t| then None
    else if s[..|t|] == t then Some(0)
    else
      match Find(s[1..], t)
      case None => None
      case Some(i) => Some(i + 1)
  }

  lemma ShiftOccurrence(s: string, t: string, i: nat)
    requires |s| > 0
    ensures OccursAt(s[1..], t, i) <==> OccursAt(s, t, i + 1)
  {
    if i + |t| <= |s[1..]| {
      assert s[1..][i..i + |t|] == s[i + 1..i + 1 + |t|];
    }
  }

  /** Find returns the first occurrence, and None exactly when there is none. */
  lemma {:induction false} FindIsFirstOccurrence(s: string, t: string)
    ensures Find(s, t).Some? ==> OccursAt(s, t, Find(s, t).value)
    ensures Find(s, t).Some? ==> forall k: nat :: k < Find(s, t).value ==> !OccursAt(s, t, k)
    ensures Find(s, t).None? ==> forall k: nat :: !OccursAt(s, t, k)
    decreases |s|
  {
    if |s| < |t| {
    } else if s[..|t|] == t {
      assert OccursAt(s, t, 0);
    } else {
      FindIsFirstOccurrence(s[1..], t);
      assert !OccursAt(s, t, 0);
      forall k: nat | k > 0
        ensures OccursAt(s, t, k) <==> OccursAt(s[1..], t, k - 1)
      {
        ShiftOccurrence(s, t, k - 1);
      }
    }
  }

  /** The converse: an occurrence with none before it is what Find reports. */
  lemma FindFirst(s: string, t: string, i: nat)
    requires OccursAt(s, t, i)
    requires forall k: nat :: k < i ==> !OccursAt(s, t, k)
    ensures Find(s, t) == Some(i)
  {
    FindIsFirstOccurrence(s, t);
  }

  /** Appending text after a found occurrence does not move it. */
  lemma FindExtend(u: string, v: string, t: string)
    requires Find(u, t).Some?
    ensures Find(u + v, t) == Find(u, t)
  {
    FindIsFirstOccurrence(u, t);
    var i := Find(u, t).value;
    assert (u + v)[i..i + |t|] == u[i..i + |t|];
    forall k: nat | k < i
      ensures !OccursAt(u + v, t, k)
    {
      assert !OccursAt(u, t, k);
      assert (u + v)[k..k + |t|] == u[k..k + |t|];
    }
    FindFirst(u + v, t, i);
  }

  /** Python's `t in s`. */
  predicate Contains(s: string, t: string) {
    Find(s, t).Some?
  }

  lemma ContainsAt(s: string, t: string, i: nat)
    requires OccursAt(s, t, i)
    ensures Contains(s, t)
  {
    FindIsFirstOccurrence(s, t);
  }

  lemma NotContains(s: string, t: string, k: nat)
    requires !Contains(s, t)
    ensures !OccursAt(s, t, k)
  {
    FindIsFirstOccurrence(s, t);
  }

  /** A piece placed between two others occurs right after the first. */
  lemma OccursBetween(a: string, t: string, b: string)
    ensures OccursAt(a + t + b, t, |a|)
  {
    assert (a + t + b)[|a|..|a| + |t|] == t;
  }

  /** Every string contains itself. */
  lemma ContainsSelf(s: string)
    ensures Contains(s, s)
  {
    assert s[0..|s|] == s;
    ContainsAt(s, s, 0);
  }

  /** Containment is transitive: what a substring contains, the whole contains. */
  lemma ContainsTransitive(s: string, t: string, u: string)
    requires Contains(s, t) && Contains(t, u)
    ensures Contains(s, u)
  {
    FindIsFirstOccurrence(s, t);
    FindIsFirstOccurrence(t, u);
    var i := Find(s, t).value;
    var j := Find(t, u).value;
    assert s[i + j..i + j + |u|] == t[j..j + |u|];
    ContainsAt(s, u, i + j);
  }

  /** No character of `s` is `c`. */
  predicate Lacks(s: string, c: char) {
    forall k :: 0 <= k < |s| ==> s[k] != c
  }

  lemma LacksNotContains(s: string, c: char)
    requires Lacks(s, c)
    ensures !Contains(s, [c])
  {
    forall k: nat
      ensures !OccursAt(s, [c], k)
    {
      if k + 1 <= |s| {
        assert s[k..k + 1] == [s[k]];
      }
    }
    FindIsFirstOccurrence(s, [c]);
  }

  /** A substring of `s` that contains `t` makes `s` contain `t`. */
  lemma ContainsWithin(a: string, s: string, b: string, t: string)
    requires Contains(s, t)
    ensures Contains(a + s + b, t)
  {
    FindIsFirstOccurrence(s, t);
    var i := Find(s, t).value;
    assert (a + s + b)[|a| + i..|a| + i + |t|] == s[i..i + |t|];
    ContainsAt(a + s + b, t, |a| + i);
  }

  // ---------------------------------------------------------------------
  // split, join, replace

  /** Python's `s.split(sep)` for a non-empty separator. */
  function Split(s: string, sep: string): (r: seq<string>)
    requires sep != []
    ensures |r| >= 1
    decreases |s|
  {
    match Find(s, sep)
    case None => [s]
    case Some(i) => [s[..i]] + Split(s[i + |sep|..], sep)
  }

  /** Python's `sep.join(xs)`. */
  function Join(xs: seq<string>, sep: string): string
  {
    if |xs| == 0 then ""
    else if |xs| == 1 then xs[0]
    else xs[0] + sep + Join(xs[1..], sep)
  }

  /** Python's `s.replace(pat, repl)` for a non-empty `old`: every
      non-overlapping occurrence, scanning from the left. */
  function ReplaceAll(s: string, pat: string, repl: string): string
    requires pat != []
    decreases |s|
  {
    match Find(s, pat)
    case None => s
    case Some(i) => s[..i] + repl + ReplaceAll(s[i + |pat|..], pat, repl)
  }

  /** No piece of a split holds the separator. */
  lemma {:induction false} SplitPiecesLackSeparator(s: string, sep: string)
    requires sep != []
    ensures forall k :: 0 <= k < |Split(s, sep)| ==> !Contains(Split(s, sep)[k], sep)
    decreases |s|
  {
    FindIsFirstOccurrence(s, sep);
    match Find(s, sep)
    case None =>
    case Some(i) =>
      var head := s[..i];
      forall k: nat
        ensures !OccursAt(head, sep, k)
      {
        if k + |sep| <= |head| {
          assert k < Find(s, sep).value;
          assert !OccursAt(s, sep, k);
          assert head[k..k + |sep|] == s[k..k + |sep|];
        }
      }
      FindIsFirstOccurrence(head, sep);
      SplitPiecesLackSeparator(s[i + |sep|..], sep);
  }

  /** A join starts with its first piece and ends with its last. */
  lemma {:induction false} JoinEnds(xs: seq<string>, sep: string)
    requires |xs| >= 1
    ensures StartsWith(Join(xs, sep), xs[0])
    ensures EndsWith(Join(xs, sep), xs[|xs| - 1])
  {
    if |xs| > 1 {
      JoinEnds(xs[1..], sep);
      var tail := Join(xs[1..], sep);
      var j := Join(xs, sep);
      assert j == xs[0] + sep + tail;
      assert j[..|xs[0]|] == xs[0];
      assert j[|j| - |tail|..] == tail;
      assert j[|j| - |xs[|xs| - 1]|..] == tail[|tail| - |xs[|xs| - 1]|..];
    }
  }

  /** `replace` is `join` after `split`: both cut at the same occurrences. */
  lemma {:induction false} ReplaceIsJoinOfSplit(s: string, pat: string, repl: string)
    requires pat != []
    ensures ReplaceAll(s, pat, repl) == Join(Split(s, pat), repl)
    decreases |s|
  {
    match Find(s, pat)
    case None =>
    case Some(i) =>
      var rest := s[i + |pat|..];
      ReplaceIsJoinOfSplit(rest, pat, repl);
      assert Split(s, pat) == [s[..i]] + Split(rest, pat);
  }

  /** Cutting `a + sep` at `sep` finds the separator right after `a`:
      `a` neither contains `sep` nor ends in a way that overlaps it. */
  predicate SplitsCleanly(a: string, sep: string) {
    Find(a + sep, sep) == Some(|a|)
  }

  lemma CleanPieceHasNoSeparator(a: string, sep: string)
    requires sep != [] && SplitsCleanly(a, sep)
    ensures !Contains(a, sep)
  {
    FindIsFirstOccurrence(a + sep, sep);
    forall k: nat
      ensures !OccursAt(a, sep, k)
    {
      if k + |sep| <= |a| {
        assert !OccursAt(a + sep, sep, k);
        assert (a + sep)[k..k + |sep|] == a[k..k + |sep|];
      }
    }
    FindIsFirstOccurrence(a, sep);
  }

  lemma SplitNoSeparator(s: string, sep: string)
    requires sep != []
    requires !Contains(s, sep)
    ensures Split(s, sep) == [s]
  {
  }

  lemma SplitCons(a: string, sep: string, b: string)
    requires sep != []
    requires SplitsCleanly(a, sep)
    ensures Split(a + sep + b, sep) == [a] + Split(b, sep)
  {
    FindExtend(a + sep, b, sep);
    var s := a + sep + b;
    assert s[..|a|] == a;
    assert s[|a| + |sep|..] == b;
  }

  /** Splitting a join gives the pieces back when each piece splits cleanly. */
  lemma {:induction false} SplitJoin(xs: seq<string>, sep: string)
    requires sep != [] && |xs| >= 1
    requires forall i :: 0 <= i < |xs| ==> SplitsCleanly(xs[i], sep)
    ensures Split(Join(xs, sep), sep) == xs
  {
    if |xs| == 1 {
      CleanPieceHasNoSeparator(xs[0], sep);
    } else {
      SplitJoin(xs[1..], sep);
      SplitCons(xs[0], sep, Join(xs[1..], sep));
      assert xs == [xs[0]] + xs[1..];
    }
  }

  /** A one-character separator cannot overlap the end of a piece. */
  lemma CleanSingleChar(a: string, sep: string)
    requires |sep| == 1 && !Contains(a, sep)
    ensures SplitsCleanly(a, sep)
  {
    assert (a + sep)[|a|..|a| + 1] == sep;
    forall k: nat | k < |a|
      ensures !OccursAt(a + sep, sep, k)
    {
      assert (a + sep)[k..k + 1] == a[k..k + 1];
      NotContains(a, sep, k);
    }
    FindFirst(a + sep, sep, |a|);
  }

  /** `", "` cannot straddle the end of a piece: its second character is not its first. */
  lemma CleanCommaSpace(a: string)
    requires !Contains(a, ", ")
    ensures SplitsCleanly(a, ", ")
  {
    var sep := ", ";
    assert (a + sep)[|a|..|a| + 2] == sep;
    forall k: nat | k < |a|
      ensures !OccursAt(a + sep, sep, k)
    {
      if k + 2 <= |a| {
        assert (a + sep)[k..k + 2] == a[k..k + 2];
        NotContains(a, sep, k);
      } else {
        assert (a + sep)[k + 1] == ',';
      }
    }
    FindFirst(a + sep, sep, |a|);
  }

  /** `" - "` straddles the end of a piece exactly when the piece ends with `" -"`. */
  lemma CleanSpacedDash(a: string)
    requires !Contains(a, " - ") && !EndsWith(a, " -")
    ensures SplitsCleanly(a, " - ")
  {
    var sep := " - ";
    assert (a + sep)[|a|..|a| + 3] == sep;
    forall k: nat | k < |a|
      ensures !OccursAt(a + sep, sep, k)
    {
      if k + 3 <= |a| {
        assert (a + sep)[k..k + 3] == a[k..k + 3];
        NotContains(a, sep, k);
      } else if k == |a| - 1 {
        var w := (a + sep)[k..k + 3];
        assert w[1] == ' ' && sep[1] == '-';
      } else {
        assert k == |a| - 2 && |a| >= 2;
        var w := (a + sep)[k..k + 3];
        assert w[..2] == a[|a| - 2..];
        assert a[|a| - 2..] != " -";
        assert w != sep by {
          assert sep[..2] == " -";
        }
      }
    }
    FindFirst(a + sep, sep, |a|);
  }

  // ---------------------------------------------------------------------
  // strip

  /** Python's `str.isspace` for one character. */
  predicate IsSpace(c: char) {
    ('\U{9}' <= c <= '\U{d}') || ('\U{1c}' <= c <= '\U{20}') || c == '\U{85}' || c == '\U{a0}'
    || c == '\U{1680}' || ('\U{2000}' <= c <= '\U{200a}') || c == '\U{2028}' || c == '\U{2029}'
    || c == '\U{202f}' || c == '\U{205f}' || c == '\U{3000}'
  }

  predicate AllSpace(s: string) {
    forall k :: 0 <= k < |s| ==> IsSpace(s[k])
  }

  /** No whitespace at either end (what `strip` leaves unchanged). */
  predicate Trimmed(s: string) {
    s == [] || (!IsSpace(s[0]) && !IsSpace(s[|s| - 1]))
  }

  /** Python's `s.lstrip()`. */
  function StripLeft(s: string): string
  {
    if |s| > 0 && IsSpace(s[0]) then StripLeft(s[1..]) else s
  }

  /** Python's `s.rstrip()`. */
  function StripRight(s: string): string
  {
    if |s| > 0 && IsSpace(s[|s| - 1]) then StripRight(s[..|s| - 1]) else s
  }

  /** Python's `s.strip()`. */
  function Strip(s: string): string
  {
    StripRight(StripLeft(s))
  }

  /** `lstrip` removes a whitespace prefix and leaves none at the front. */
  lemma {:induction false} StripLeftSpec(s: string)
    ensures |StripLeft(s)| <= |s| && StripLeft(s) == s[|s| - |StripLeft(s)|..]
    ensures AllSpace(s[..|s| - |StripLeft(s)|])
    ensures StripLeft(s) == [] || !IsSpace(StripLeft(s)[0])
  {
    if |s| > 0 && IsSpace(s[0]) {
      StripLeftSpec(s[1..]);
      var n := |s| - |StripLeft(s)|;
      assert s[..n] == [s[0]] + s[1..][..n - 1];
    }
  }

  /** `rstrip` removes a whitespace suffix and leaves none at the end. */
  lemma {:induction false} StripRightSpec(s: string)
    ensures |StripRight(s)| <= |s| && StripRight(s) == s[..|StripRight(s)|]
    ensures AllSpace(s[|StripRight(s)|..])
    ensures StripRight(s) == [] || !IsSpace(StripRight(s)[|StripRight(s)| - 1])
  {
    if |s| > 0 && IsSpace(s[|s| - 1]) {
      var init := s[..|s| - 1];
      StripRightSpec(init);
      var n := |StripRight(s)|;
      assert s[n..] == init[n..] + [s[|s| - 1]];
    }
  }

  /** Strip removes only whitespace, from both ends, and leaves none there. */
  lemma StripSpec(s: string)
    ensures Trimmed(Strip(s))
    ensures exists i, j :: 0 <= i <= j <= |s| && Strip(s) == s[i..j] && AllSpace(s[..i]) && AllSpace(s[j..])
  {
    var l := StripLeft(s);
    var r := StripRight(l);
    StripLeftSpec(s);
    StripRightSpec(l);
    var i := |s| - |l|;
    var j := i + |r|;
    assert r == s[i..j];
    assert s[j..] == l[|r|..];
    if r != [] {
      assert r[0] == l[0];
    }
  }

  lemma StripTrimmed(s: string)
    requires Trimmed(s)
    ensures Strip(s) == s
  {
    assert StripLeft(s) == s;
  }

  /** A single trailing space is stripped from otherwise trimmed text. */
  lemma StripTrailingSpace(s: string)
    requires s != [] && Trimmed(s)
    ensures Strip(s + " ") == s
  {
    var t := s + " ";
    assert StripLeft(t) == t;
    assert t[..|t| - 1] == s;
    assert StripRight(t) == StripRight(s);
    assert StripRight(s) == s;
  }

  lemma {:induction false} StripAllSpace(s: string)
    requires AllSpace(s)
    ensures Strip(s) == ""
  {
    if |s| > 0 {
      StripAllSpace(s[1..]);
    }
  }

  // ---------------------------------------------------------------------
  // lower

  /** `str.lower` on one character, for ASCII and the Latin-1 capitals
      (which covers the accented letters of Spanish). */
  function LowerChar(c: char): (r: char)
    ensures r == c || r as int == c as int + 32
  {
    if 'A' <= c <= 'Z' || ('À' <= c <= 'Þ' && c != '×') then
      (c as int + 32) as char
    else c
  }

  function Lower(s: string): (r: string)
    ensures |r| == |s| && forall k :: 0 <= k < |s| ==> r[k] == LowerChar(s[k])
  {
    seq(|s|, k requires 0 <= k < |s| => LowerChar(s[k]))
  }

  lemma LowerConcat(a: string, b: string)
    ensures Lower(a + b) == Lower(a) + Lower(b)
  {
  }

  // ---------------------------------------------------------------------
  // decimal numbers

  function DigitChar(d: nat): (c: char)
    requires d < 10
  {
    ('0' as int + d) as char
  }

  predicate IsDigit(c: char) {
    '0' <= c <= '9'
  }

  /** The text of `n` in an f-string: decimal, no leading zeros. */
  function NatToString(n: nat): (r: string)
    ensures |r| >= 1 && forall k :: 0 <= k < |r| ==> IsDigit(r[k])
  {
    if n < 10 then [DigitChar(n)] else NatToString(n / 10) + [DigitChar(n % 10)]
  }

  /** The text of an `int` in an f-string: a minus sign before a negative number. */
  function IntToString(n: int): string {
    if n < 0 then "-" + NatToString(-n) else NatToString(n)
  }

  /** Reading a string of digits back as a number. */
  function ParseDigits(s: string): nat
    requires forall k :: 0 <= k < |s| ==> IsDigit(s[k])
  {
    if s == [] then 0
    else
      var last := s[|s| - 1];
      assert IsDigit(last);
      10 * ParseDigits(s[..|s| - 1]) + (last as int - '0' as int)
  }

  lemma {:induction false} NatToStringRoundTrip(n: nat)
    ensures ParseDigits(NatToString(n)) == n
  {
    if n >= 10 {
      NatToStringRoundTrip(n / 10);
      var s := NatToString(n);
      assert s[..|s| - 1] == NatToString(n / 10);
    }
  }

  lemma NatToStringInjective(a: nat, b: nat)
    requires NatToString(a) == NatToString(b)
    ensures a == b
  {
    NatToStringRoundTrip(a);
    NatToStringRoundTrip(b);
  }
}

/**
 * The string operations of JavaScript that the pages rely on, over `string` (= `seq<char>`):
 * `includes`, `split` with a non-empty separator, `join`, and the decimal rendering of an integer
 * inside a template literal, with the first-occurrence search the first two are built on.
 */
module Text {
  import opened Wrappers

  /** `t` occurs in `s` starting at position `j`. */
  predicate OccursAt(s: string, t: string, j: int) {
    0 <= j && j + |t| <= |s| && t <= s[j..]
  }

  /** The search `includes` and `split` are built on: the first position at or after `from` where `t` occurs. */
  function IndexFrom(s: string, t: string, from: nat): (r: Option<nat>)
    ensures r.Some? ==> from <= r.value && OccursAt(s, t, r.value)
    ensures r.Some? ==> forall j :: from <= j < r.value ==> !OccursAt(s, t, j)
    ensures r.None? ==> forall j :: from <= j ==> !OccursAt(s, t, j)
    decreases |s| - from
  {
    if from + |t| > |s| then None
    else if t <= s[from..] then Some(from)
    else IndexFrom(s, t, from + 1)
  }

  /** A slice equal to `t` is an occurrence of `t`. */
  lemma OccursAtSlice(s: string, t: string, j: nat)
    requires j + |t| <= |s| && s[j..j + |t|] == t
    ensures OccursAt(s, t, j)
  {
    assert s[j..][..|t|] == s[j..j + |t|];
  }

  /** `s.includes(t)`. */
  predicate Includes(s: string, t: string)
    ensures Includes(s, t) ==> |t| <= |s|
    ensures t == [] ==> Includes(s, t)
  {
    IndexFrom(s, t, 0).Some?
  }

  /** `includes` holds exactly when some position carries an occurrence. */
  lemma IncludesIff(s: string, t: string)
    ensures Includes(s, t) <==> exists j :: OccursAt(s, t, j)
  {
    if exists j :: OccursAt(s, t, j) {
      var j :| OccursAt(s, t, j);
      assert 0 <= j;
    }
  }

  /** An occurrence with no earlier one at or after `from` is the one the search finds. */
  lemma IndexFromFirst(s: string, t: string, from: nat, k: nat)
    requires from <= k && OccursAt(s, t, k)
    requires forall j :: from <= j < k ==> !OccursAt(s, t, j)
    ensures IndexFrom(s, t, from) == Some(k)
  {
  }

  /** A one-character string occurs exactly where that character stands. */
  lemma IncludesChar(s: string, c: char)
    ensures Includes(s, [c]) <==> c in s
  {
    IncludesIff(s, [c]);
    if c in s {
      var j :| 0 <= j < |s| && s[j] == c;
      assert OccursAt(s, [c], j);
    }
    if Includes(s, [c]) {
      var j :| OccursAt(s, [c], j);
      assert s[j] == s[j..][0] == c;
    }
  }

  /** Occurrence is transitive: a string containing `t` contains whatever `t` contains. */
  lemma IncludesTransitive(s: string, t: string, u: string)
    requires Includes(s, t) && Includes(t, u)
    ensures Includes(s, u)
  {
    var i := IndexFrom(s, t, 0).value;
    var k := IndexFrom(t, u, 0).value;
    assert s[i + k..][..|u|] == t[k..][..|u|];
    assert OccursAt(s, u, i + k);
    IncludesIff(s, u);
  }

  /** A string contains whatever stands in its middle. */
  lemma IncludesMiddle(a: string, t: string, b: string)
    ensures Includes(a + t + b, t)
  {
    var s := a + t + b;
    assert s[|a|..|a| + |t|] == t;
    OccursAtSlice(s, t, |a|);
    IncludesIff(s, t);
  }

  /** A string without `sep`'s first character holds no `sep`. */
  lemma NoLeadNoOccurrence(s: string, sep: string)
    requires |sep| > 0 && sep[0] !in s
    ensures !Includes(s, sep)
  {
    IncludesPrefix(sep, [sep[0]]);
    if Includes(s, sep) {
      IncludesTransitive(s, sep, [sep[0]]);
      IncludesChar(s, sep[0]);
    }
  }

  /** A string holding `sep` holds `sep`'s first character. */
  lemma IncludesLead(s: string, sep: string)
    requires |sep| > 0 && Includes(s, sep)
    ensures sep[0] in s
  {
    IncludesPrefix(sep, [sep[0]]);
    IncludesTransitive(s, sep, [sep[0]]);
    IncludesChar(s, sep[0]);
  }

  /** A string contains each of its prefixes. */
  lemma IncludesPrefix(t: string, u: string)
    requires u <= t
    ensures Includes(t, u)
  {
    assert OccursAt(t, u, 0);
  }

  /** `s.split(sep)` for a non-empty separator: the pieces between non-overlapping occurrences, left to right. */
  function Split(s: string, sep: string): (parts: seq<string>)
    requires |sep| > 0
    ensures |parts| >= 1
    decreases |s|
  {
    match IndexFrom(s, sep, 0)
    case None => [s]
    case Some(i) => [s[..i]] + Split(s[i + |sep|..], sep)
  }

  /** Cut at a one-character separator, the first piece runs up to the first place that character stands. */
  lemma SplitAtChar(s: string, c: char, i: nat)
    requires i < |s| && s[i] == c && c !in s[..i]
    ensures Split(s, [c])[0] == s[..i]
  {
    assert s[i..i + 1] == [c];
    OccursAtSlice(s, [c], i);
    forall j | 0 <= j < i ensures !OccursAt(s, [c], j) {
      assert s[j] == s[..i][j];
      assert s[j..][0] == s[j];
    }
    IndexFromFirst(s, [c], 0, i);
  }

  /** `split(sep)[0]`: `s` up to the first separator, which therefore holds none. */
  lemma SplitHead(s: string, sep: string)
    requires |sep| > 0
    ensures !Includes(Split(s, sep)[0], sep)
    ensures Split(s, sep)[0] <= s
    ensures !Includes(s, sep) ==> Split(s, sep) == [s]
  {
    var h := Split(s, sep)[0];
    IncludesIff(h, sep);
    if exists j :: OccursAt(h, sep, j) {
      var j :| OccursAt(h, sep, j);
      var i := IndexFrom(s, sep, 0).value;
      assert h == s[..i];
      assert s[j..][..|sep|] == h[j..][..|sep|];
      assert OccursAt(s, sep, j);
    }
  }

  /** `split(sep)[1]`, when there is one: the text after the first separator, up to the second. */
  function SecondPiece(s: string, sep: string): (r: Option<string>)
    requires |sep| > 0
    ensures r.None? <==> !Includes(s, sep)
  {
    var parts := Split(s, sep);
    if |parts| > 1 then Some(parts[1]) else None
  }

  /** The second piece starts right after the first separator and holds no separator itself. */
  lemma SecondPieceSpec(s: string, sep: string)
    requires |sep| > 0 && Includes(s, sep)
    ensures var i := IndexFrom(s, sep, 0).value;
      SecondPiece(s, sep) == Some(Split(s[i + |sep|..], sep)[0])
    ensures !Includes(SecondPiece(s, sep).value, sep)
  {
    var i := IndexFrom(s, sep, 0).value;
    SplitHead(s[i + |sep|..], sep);
  }

  /** `parts.join(sep)`; the empty array joins to the empty string. */
  function Join(parts: seq<string>, sep: string): (r: string)
    ensures |parts| > 0 ==> parts[0] <= r
  {
    if |parts| == 0 then ""
    else if |parts| == 1 then parts[0]
    else parts[0] + sep + Join(parts[1..], sep)
  }

  /** Joining two non-empty lists puts one separator between their joins. */
  lemma {:induction false} JoinAppend(a: seq<string>, b: seq<string>, sep: string)
    requires |a| > 0 && |b| > 0
    ensures Join(a + b, sep) == Join(a, sep) + sep + Join(b, sep)
  {
    if |a| == 1 {
      assert (a + b)[1..] == b;
    } else {
      assert (a + b)[1..] == a[1..] + b;
      JoinAppend(a[1..], b, sep);
    }
  }

  /** Splitting on a one-character separator undoes a join of pieces that do not contain it. */
  lemma {:induction false} SplitJoin(parts: seq<string>, c: char)
    requires |parts| > 0
    requires forall k :: 0 <= k < |parts| ==> c !in parts[k]
    ensures Split(Join(parts, [c]), [c]) == parts
  {
    var s := Join(parts, [c]);
    IncludesChar(parts[0], c);
    if |parts| == 1 {
      assert s == parts[0];
      SplitHead(s, [c]);
    } else {
      var rest := Join(parts[1..], [c]);
      var p := parts[0];
      assert s == p + [c] + rest;
      assert OccursAt(s, [c], |p|);
      forall j | 0 <= j < |p| ensures !OccursAt(s, [c], j) {
        assert s[j] == p[j];
      }
      IndexFromFirst(s, [c], 0, |p|);
      assert s[..|p|] == p;
      assert s[|p| + 1..] == rest;
      SplitJoin(parts[1..], c);
      assert Split(s, [c]) == [p] + Split(rest, [c]);
      assert parts == [p] + parts[1..];
    }
  }

  /** The decimal digit for `d`. */
  function Digit(d: nat): (c: char)
    requires d < 10
    ensures '0' <= c <= '9'
  {
    "0123456789"[d]
  }

  /** The value of a decimal digit character. */
  function DigitValue(c: char): (d: nat)
    requires '0' <= c <= '9'
    ensures d < 10
  {
    (c as int - '0' as int) as nat
  }

  predicate IsDigitString(s: string) {
    |s| > 0 && forall k :: 0 <= k < |s| ==> '0' <= s[k] <= '9'
  }

  /** `${n}` for a non-negative integer: its shortest decimal numeral. */
  function NatToString(n: nat): (s: string)
    ensures IsDigitString(s)
    decreases n
  {
    if n < 10 then [Digit(n)] else NatToString(n / 10) + [Digit(n % 10)]
  }

  /** `${i}` for any integer: a minus sign before negative numbers. */
  function IntToString(i: int): (r: string)
    ensures i >= 0 ==> IsDigitString(r)
    ensures i < 0 ==> |r| > 1 && r[0] == '-' && IsDigitString(r[1..])
  {
    if i < 0 then "-" + NatToString(-i) else NatToString(i)
  }

  /** Reads a decimal numeral back. */
  function ParseNat(s: string): nat
    requires IsDigitString(s)
    decreases |s|
  {
    if |s| == 1 then DigitValue(s[0])
    else ParseNat(s[..|s| - 1]) * 10 + DigitValue(s[|s| - 1])
  }

  /** Reading a numeral back gives the number that was rendered. */
  lemma {:induction false} ParseNatToString(n: nat)
    ensures ParseNat(NatToString(n)) == n
    decreases n
  {
    var s := NatToString(n);
    if n < 10 {
    } else {
      ParseNatToString(n / 10);
      assert s[..|s| - 1] == NatToString(n / 10);
    }
  }

  /** The rendering of an integer never holds a line break. */
  lemma IntToStringHasNoNewline(i: int)
    ensures '\n' !in IntToString(i)
  {
    var d := NatToString(if i < 0 then -i else i);
    assert forall k :: 0 <= k < |d| ==> d[k] != '\n';
  }
}

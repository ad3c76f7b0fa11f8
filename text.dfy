/**
 * String scanning used by the bot: decimal numbers (Python's `str(n)` and `int(s)`),
 * whitespace as Python's `str.split()`, `str.strip()` and the regex class `\s` see it,
 * substring search (`in`, `str.replace`, the leftmost match of `re.search`) and the
 * comma-joined id lists of the role-change payload.
 */
module Text {
  import opened Wrappers

  // ---------------------------------------------------------------------------
  // Leftmost search, the common shape of `re.search`, `str.find` and `in`
  // ---------------------------------------------------------------------------

  /** The least position `k` with `from <= k < bound` satisfying `P`, if any. */
  function FirstFrom(from: nat, bound: nat, P: nat -> bool): (r: Option<nat>)
    ensures r.Some? ==> from <= r.value < bound && P(r.value)
    ensures r.Some? ==> forall j :: from <= j < r.value ==> !P(j)
    ensures r.None? ==> forall j :: from <= j < bound ==> !P(j)
    decreases bound - from
  {
    if bound <= from then None
    else if P(from) then Some(from)
    else FirstFrom(from + 1, bound, P)
  }

  // ---------------------------------------------------------------------------
  // Digits and decimal numbers
  // ---------------------------------------------------------------------------

  /** ASCII decimal digits (the model's reading of regex `\d` and of `int()`). */
  predicate IsDigit(c: char) {
    '0' <= c <= '9'
  }

  function DigitValue(c: char): nat
    requires IsDigit(c)
  {
    c as int - '0' as int
  }

  function DigitChar(d: nat): (c: char)
    requires d < 10
    ensures IsDigit(c) && DigitValue(c) == d
  {
    ('0' as int + d) as char
  }

  predicate AllDigits(s: string) {
    forall i :: 0 <= i < |s| ==> IsDigit(s[i])
  }

  /** Python's `str(n)` for a non-negative integer: no sign, no leading zeros. */
  function NatToString(n: nat): (s: string)
    ensures |s| > 0 && AllDigits(s)
    ensures |s| > 1 ==> s[0] != '0'
    decreases n
  {
    if n < 10 then [DigitChar(n)] else NatToString(n / 10) + [DigitChar(n % 10)]
  }

  /** Python's `int(s)` on a string of decimal digits (leading zeros allowed). */
  function DigitsValue(s: string): nat
    requires AllDigits(s)
  {
    if s == [] then 0 else DigitsValue(s[..|s| - 1]) * 10 + DigitValue(s[|s| - 1])
  }

  /** `int(str(n)) == n`. */
  lemma {:induction false} ValueOfNatToString(n: nat)
    ensures DigitsValue(NatToString(n)) == n
  {
    if n >= 10 {
      var s := NatToString(n);
      assert s[..|s| - 1] == NatToString(n / 10);
      ValueOfNatToString(n / 10);
    }
  }

  /** Distinct numbers have distinct decimal strings, so `str` keys never merge two ids. */
  lemma NatToStringInjective(a: nat, b: nat)
    ensures NatToString(a) == NatToString(b) ==> a == b
  {
    ValueOfNatToString(a);
    ValueOfNatToString(b);
  }

  /** The end of the maximal run of digits that starts at `i`. */
  function RunEnd(s: string, i: nat): (e: nat)
    requires i <= |s|
    ensures i <= e <= |s| && AllDigits(s[i..e])
    ensures e == |s| || !IsDigit(s[e])
    decreases |s| - i
  {
    if i < |s| && IsDigit(s[i]) then RunEnd(s, i + 1) else i
  }

  /** A digit run is recognised exactly where it ends. */
  lemma {:induction false} RunEndAt(s: string, i: nat, k: nat)
    requires i <= k <= |s| && AllDigits(s[i..k])
    requires k == |s| || !IsDigit(s[k])
    ensures RunEnd(s, i) == k
    decreases k - i
  {
    if i < k {
      assert IsDigit(s[i..k][0]);
      assert s[i + 1..k] == s[i..k][1..];
      RunEndAt(s, i + 1, k);
    }
  }

  /** True where a maximal digit run starts (regex `\d+` cannot start inside a run). */
  predicate RunStart(s: string, k: nat) {
    k < |s| && IsDigit(s[k]) && (k == 0 || !IsDigit(s[k - 1]))
  }

  /** The decimal value of the maximal digit run starting at `k`. */
  function RunValue(s: string, k: nat): nat
    requires k <= |s|
  {
    DigitsValue(s[k..RunEnd(s, k)])
  }

  // ---------------------------------------------------------------------------
  // Whitespace, strip and split
  // ---------------------------------------------------------------------------

  /** The characters for which Python's `str.isspace()` holds (also regex `\s`). */
  predicate IsSpace(c: char) {
    c == ' ' || '\t' <= c <= '\r' || '\U{1C}' <= c <= '\U{1F}' || c == '\U{85}' || c == '\U{A0}'
    || c == '\U{1680}' || '\U{2000}' <= c <= '\U{200A}' || c == '\U{2028}' || c == '\U{2029}'
    || c == '\U{202F}' || c == '\U{205F}' || c == '\U{3000}'
  }

  predicate IsBlank(s: string) {
    forall i :: 0 <= i < |s| ==> IsSpace(s[i])
  }

  /** The first position at or after `i` that is not whitespace (regex `\s*`). */
  function SkipSpaces(s: string, i: nat): (e: nat)
    requires i <= |s|
    ensures i <= e <= |s| && IsBlank(s[i..e])
    ensures e == |s| || !IsSpace(s[e])
    decreases |s| - i
  {
    if i < |s| && IsSpace(s[i]) then SkipSpaces(s, i + 1) else i
  }

  function StripLeft(s: string): (r: string)
    ensures |r| <= |s| && r == s[|s| - |r|..]
    ensures IsBlank(s[..|s| - |r|])
    ensures r == [] || !IsSpace(r[0])
  {
    s[SkipSpaces(s, 0)..]
  }

  function StripRight(s: string): (r: string)
    ensures |r| <= |s| && r == s[..|r|]
    ensures IsBlank(s[|r|..])
    ensures r == [] || !IsSpace(r[|r| - 1])
  {
    if s != [] && IsSpace(s[|s| - 1]) then
      var t := s[..|s| - 1];
      var r := StripRight(t);
      assert s[|r|..] == t[|r|..] + [s[|s| - 1]];
      r
    else s
  }

  /** Python's `str.strip()`. */
  function Strip(s: string): string {
    StripRight(StripLeft(s))
  }

  /** `s.strip()` is empty exactly when `s` is all whitespace; otherwise it neither starts nor ends with whitespace. */
  lemma StripProperties(s: string)
    ensures Strip(s) == [] <==> IsBlank(s)
    ensures Strip(s) != [] ==> !IsSpace(Strip(s)[0]) && !IsSpace(Strip(s)[|Strip(s)| - 1])
  {
    var l := StripLeft(s);
    var r := StripRight(l);
    if r == [] {
      assert l[0..] == l;
      assert l == [];
      assert s[..|s|] == s;
    } else {
      assert r[0] == l[0];
      assert !IsSpace(s[|s| - |l|]);
    }
  }

  /** The end of the whitespace-free token starting at `i`. */
  function TokenEnd(s: string, i: nat): (e: nat)
    requires i <= |s|
    ensures i <= e <= |s|
    ensures forall k :: i <= k < e ==> !IsSpace(s[k])
    ensures e == |s| || IsSpace(s[e])
    decreases |s| - i
  {
    if i < |s| && !IsSpace(s[i]) then TokenEnd(s, i + 1) else i
  }

  predicate NoSpace(w: string) {
    forall k :: 0 <= k < |w| ==> !IsSpace(w[k])
  }

  /** Python's `str.split()` with no separator: the maximal runs of non-whitespace. */
  function Words(s: string): (ws: seq<string>)
    ensures forall i :: 0 <= i < |ws| ==> |ws[i]| > 0 && NoSpace(ws[i])
    ensures ws == [] <==> IsBlank(s)
    decreases |s|
  {
    var start := SkipSpaces(s, 0);
    if start == |s| then
      assert s[0..start] == s;
      []
    else
      var e := TokenEnd(s, start);
      assert !IsBlank(s) by { assert !IsSpace(s[start]); }
      [s[start..e]] + Words(s[e..])
  }

  // ---------------------------------------------------------------------------
  // Case folding
  // ---------------------------------------------------------------------------

  function LowerChar(c: char): char {
    if 'A' <= c <= 'Z' then (c as int + 32) as char else c
  }

  /** Python's `str.lower()`, restricted to ASCII letters. */
  function Lower(s: string): (r: string)
    ensures |r| == |s|
    ensures forall i :: 0 <= i < |s| ==> r[i] == LowerChar(s[i])
  {
    seq(|s|, i requires 0 <= i < |s| => LowerChar(s[i]))
  }

  // ---------------------------------------------------------------------------
  // Substrings
  // ---------------------------------------------------------------------------

  predicate OccursAt(s: string, pat: string, i: nat) {
    i + |pat| <= |s| && s[i..i + |pat|] == pat
  }

  /** Python's `s.find(pat)` (as an option): the leftmost occurrence. */
  function IndexOf(s: string, pat: string): Option<nat> {
    FirstFrom(0, |s| + 1, (i: nat) => OccursAt(s, pat, i))
  }

  /** Python's `pat in s`. */
  predicate Contains(s: string, pat: string) {
    IndexOf(s, pat).Some?
  }

  /** `pat in s` holds exactly when `pat` occurs at some position. */
  lemma ContainsIff(s: string, pat: string)
    ensures Contains(s, pat) <==> exists i :: 0 <= i <= |s| && OccursAt(s, pat, i)
  {
    if !Contains(s, pat) {
      forall i | 0 <= i <= |s| ensures !OccursAt(s, pat, i) {
        assert ((j: nat) => OccursAt(s, pat, j))(i) == OccursAt(s, pat, i);
      }
    }
  }

  /** Whenever `a + b` occurs in `s`, so does `b`. */
  lemma ContainsSuffix(s: string, a: string, b: string)
    requires Contains(s, a + b)
    ensures Contains(s, b)
  {
    ContainsIff(s, a + b);
    var i :| 0 <= i <= |s| && OccursAt(s, a + b, i);
    assert s[i + |a|..i + |a| + |b|] == (a + b)[|a|..];
    assert OccursAt(s, b, i + |a|);
    ContainsIff(s, b);
  }

  /** Python's `s.replace(pat, rep, 1)`. */
  function ReplaceFirst(s: string, pat: string, rep: string): (r: string)
    ensures !Contains(s, pat) ==> r == s
    ensures Contains(s, pat) ==>
      var i := IndexOf(s, pat).value;
      r == s[..i] + rep + s[i + |pat|..]
  {
    match IndexOf(s, pat)
    case None => s
    case Some(i) => s[..i] + rep + s[i + |pat|..]
  }

  /** Python's `s.replace(pat, rep)`: every occurrence, left to right, without overlap. */
  function ReplaceAll(s: string, pat: string, rep: string): (r: string)
    requires |pat| > 0
    ensures !Contains(s, pat) ==> r == s
    decreases |s|
  {
    match IndexOf(s, pat)
    case None => s
    case Some(i) => s[..i] + rep + ReplaceAll(s[i + |pat|..], pat, rep)
  }

  // ---------------------------------------------------------------------------
  // Comma-joined id lists: `",".join(map(str, ids))` and its inverse
  // ---------------------------------------------------------------------------

  function JoinIds(ids: seq<nat>): string {
    if ids == [] then ""
    else if |ids| == 1 then NatToString(ids[0])
    else NatToString(ids[0]) + "," + JoinIds(ids[1..])
  }

  /** Reads back a non-empty comma-separated list of decimal numbers. */
  function ParseIdList(s: string): Option<seq<nat>>
    decreases |s|
  {
    var e := RunEnd(s, 0);
    if e == 0 then None
    else if e == |s| then Some([DigitsValue(s[..e])])
    else if s[e] != ',' then None
    else
      match ParseIdList(s[e + 1..])
      case None => None
      case Some(rest) => Some([DigitsValue(s[..e])] + rest)
  }

  /** Reads back a joined id list; the empty string is the empty list. */
  function ParseIds(s: string): Option<seq<nat>> {
    if s == "" then Some([]) else ParseIdList(s)
  }

  /** The decimal string of `n`, followed by anything that does not start with a digit, is read back as `n`. */
  lemma NumberPrefix(n: nat, t: string)
    requires t == [] || !IsDigit(t[0])
    ensures RunEnd(NatToString(n) + t, 0) == |NatToString(n)|
    ensures (NatToString(n) + t)[..|NatToString(n)|] == NatToString(n)
    ensures DigitsValue((NatToString(n) + t)[..|NatToString(n)|]) == n
  {
    var s := NatToString(n) + t;
    var k := |NatToString(n)|;
    assert s[0..k] == NatToString(n);
    if k < |s| { assert s[k] == t[0]; }
    RunEndAt(s, 0, k);
    ValueOfNatToString(n);
  }

  /** The decimal string of `n` placed after `pre` is the digit run that starts at `|pre|`. */
  lemma NumberAt(pre: string, n: nat, t: string)
    requires t == [] || !IsDigit(t[0])
    ensures var s := pre + NatToString(n) + t;
            var k := |pre| + |NatToString(n)|;
            k <= |s| && RunEnd(s, |pre|) == k && s[|pre|..k] == NatToString(n) && DigitsValue(s[|pre|..k]) == n &&
            (k == |s| || s[k] == t[0])
  {
    var s := pre + NatToString(n) + t;
    var k := |pre| + |NatToString(n)|;
    assert s[|pre|..k] == NatToString(n);
    if k < |s| { assert s[k] == t[0]; }
    RunEndAt(s, |pre|, k);
    ValueOfNatToString(n);
  }

  /** The role-change payload fields can be read back into the id lists they were built from. */
  lemma {:induction false} JoinIdsRoundTrip(ids: seq<nat>)
    ensures ParseIds(JoinIds(ids)) == Some(ids)
  {
    if |ids| == 1 {
      var s := NatToString(ids[0]);
      NumberPrefix(ids[0], "");
      assert s + "" == s;
      assert s[..|s|] == s;
      assert ParseIdList(s) == Some([ids[0]]);
      assert JoinIds(ids) == s && ids == [ids[0]];
    } else if |ids| > 1 {
      var tail := "," + JoinIds(ids[1..]);
      var s := NatToString(ids[0]) + tail;
      assert JoinIds(ids) == s;
      NumberPrefix(ids[0], tail);
      var k := |NatToString(ids[0])|;
      assert s[k] == ',';
      assert s[k + 1..] == JoinIds(ids[1..]);
      JoinIdsRoundTrip(ids[1..]);
      JoinNonEmpty(ids[1..]);
      assert ids == [ids[0]] + ids[1..];
    }
  }

  lemma JoinNonEmpty(ids: seq<nat>)
    requires ids != []
    ensures JoinIds(ids) != ""
  {
  }

  // ---------------------------------------------------------------------------
  // Joining lines and reading fixed-format headers
  // ---------------------------------------------------------------------------

  /** `sep.join(parts)`. */
  function Join(parts: seq<string>, sep: string): string {
    if parts == [] then ""
    else if |parts| == 1 then parts[0]
    else Join(parts[..|parts| - 1], sep) + sep + parts[|parts| - 1]
  }

  /** Concatenation of all parts, in order (`s += part` in a loop). */
  function Concat(parts: seq<string>): string {
    if parts == [] then "" else Concat(parts[..|parts| - 1]) + parts[|parts| - 1]
  }

  /** Stated for use in loops that extend a string, where the solver does not find it unaided. */
  lemma AppendAssoc<T>(a: seq<T>, b: seq<T>, c: seq<T>)
    ensures (a + b) + c == a + (b + c)
  {
  }

  /** The join of the first `i + 1` parts extends the join of the first `i` by part `i`. */
  lemma ConcatPrefix(parts: seq<string>, i: nat)
    requires i < |parts|
    ensures Concat(parts[..i + 1]) == Concat(parts[..i]) + parts[i]
  {
    assert parts[..i + 1][..i] == parts[..i];
  }

  /** `str(n)` for an integer that may be negative. */
  function IntToString(n: int): string {
    if n >= 0 then NatToString(n) else "-" + NatToString(-n)
  }

  /** Reads a leading run of decimal digits: its value and what follows it. */
  function ReadNumber(s: string): Option<(nat, string)> {
    var e := RunEnd(s, 0);
    if e == 0 then None else Some((DigitsValue(s[..e]), s[e..]))
  }

  /** What follows the literal prefix `lit`, if `s` starts with it. */
  function Expect(s: string, lit: string): Option<string> {
    if lit <= s then Some(s[|lit|..]) else None
  }

  lemma ReadNumberOf(n: nat, t: string)
    requires t == [] || !IsDigit(t[0])
    ensures ReadNumber(NatToString(n) + t) == Some((n, t))
  {
    NumberPrefix(n, t);
    assert (NatToString(n) + t)[|NatToString(n)|..] == t;
  }

  lemma ExpectOf(lit: string, t: string)
    ensures Expect(lit + t, lit) == Some(t)
  {
    assert (lit + t)[..|lit|] == lit;
    assert (lit + t)[|lit|..] == t;
  }
}

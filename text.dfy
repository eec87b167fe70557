/** String helpers shared by the server and the client: JavaScript's `trim`,
    `startsWith`, the regular-expression class `\w`, and decimal rendering of
    numbers in template strings (with `parseInt` as its inverse). */
module Text {
  import opened Wrappers

  /** The whitespace `String.prototype.trim` removes, limited to a fixed set:
      space, tab, the line terminators, vertical tab, form feed, no-break space
      and the byte-order mark. */
  predicate IsSpace(c: char) {
    c == ' ' || c == '\t' || c == '\n' || c == '\r' || c == '\U{B}' || c == '\U{C}'
    || c == '\U{A0}' || c == '\U{FEFF}' || c == '\U{2028}' || c == '\U{2029}'
  }

  /** Every character of `s` is whitespace (so `s.trim()` is falsy). */
  predicate Blank(s: string) {
    forall i :: 0 <= i < |s| ==> IsSpace(s[i])
  }

  /** The index of the first non-whitespace character of `s` at or after `i`,
      or `|s|` when there is none. */
  function SkipSpaces(s: string, i: nat): (k: nat)
    requires i <= |s|
    ensures i <= k <= |s|
    ensures forall j :: i <= j < k ==> IsSpace(s[j])
    ensures k == |s| || !IsSpace(s[k])
    decreases |s| - i
  {
    if i < |s| && IsSpace(s[i]) then SkipSpaces(s, i + 1) else i
  }

  /** The end of `s[lo..hi]` once its trailing whitespace is dropped. */
  function DropTrailingSpaces(s: string, lo: nat, hi: nat): (e: nat)
    requires lo <= hi <= |s|
    ensures lo <= e <= hi
    ensures forall j :: e <= j < hi ==> IsSpace(s[j])
    ensures e == lo || !IsSpace(s[e - 1])
    decreases hi
  {
    if lo < hi && IsSpace(s[hi - 1]) then DropTrailingSpaces(s, lo, hi - 1) else hi
  }

  /** `s.trim()`: `s` with its leading and trailing whitespace removed. */
  function Trim(s: string): string {
    var k := SkipSpaces(s, 0);
    s[k..DropTrailingSpaces(s, k, |s|)]
  }

  /** The trimmed string is the slice `s[k..k + |r|]`, where `k` is the index
      of the first non-whitespace character, and everything outside that
      slice is whitespace; it neither starts nor ends with whitespace, and it
      is empty exactly when `s` is blank. */
  lemma TrimSpec(s: string)
    ensures var r := Trim(s);
      && (r == [] || (!IsSpace(r[0]) && !IsSpace(r[|r| - 1])))
      && (r == [] <==> Blank(s))
      && var k := SkipSpaces(s, 0);
      && k + |r| <= |s| && r == s[k..k + |r|]
      && (forall i :: 0 <= i < k ==> IsSpace(s[i]))
      && (forall i :: k + |r| <= i < |s| ==> IsSpace(s[i]))
  {
  }

  /** `s.startsWith(p)`. */
  predicate StartsWith(s: string, p: string) {
    p <= s
  }

  /** `pat` occurs in `s` at index `k`. */
  predicate OccursAt(s: string, pat: string, k: nat) {
    k + |pat| <= |s| && s[k..k + |pat|] == pat
  }

  /** The leftmost occurrence of `pat` in `s` at or after `i`. */
  function IndexFrom(s: string, pat: string, i: nat): (r: Option<nat>)
    requires i <= |s|
    ensures r.Some? ==> i <= r.value && OccursAt(s, pat, r.value)
    ensures r.Some? ==> forall j :: i <= j < r.value ==> !OccursAt(s, pat, j)
    ensures r.None? ==> forall j :: i <= j <= |s| ==> !OccursAt(s, pat, j)
    decreases |s| - i
  {
    if OccursAt(s, pat, i) then Some(i)
    else if i == |s| then None
    else IndexFrom(s, pat, i + 1)
  }

  /** `s.indexOf(pat)`, or `None` for -1. */
  function IndexOf(s: string, pat: string): Option<nat> {
    IndexFrom(s, pat, 0)
  }

  /** `s.replace(pat, rep)` with a string pattern: only the leftmost
      occurrence is replaced. */
  function ReplaceFirst(s: string, pat: string, rep: string): string {
    match IndexOf(s, pat)
    case None => s
    case Some(k) => s[..k] + rep + s[k + |pat|..]
  }

  /** Removing a pattern that `s` starts with drops exactly that prefix. */
  lemma ReplaceAtStart(s: string, pat: string)
    requires StartsWith(s, pat)
    ensures ReplaceFirst(s, pat, "") == s[|pat|..]
  {
    assert OccursAt(s, pat, 0);
    assert s[..0] + "" + s[|pat|..] == s[|pat|..];
  }

  /** A pattern that does not occur leaves `s` unchanged; one that does is
      replaced at its leftmost place, with everything around it kept. */
  lemma ReplaceFirstPlaces(s: string, pat: string, rep: string)
    ensures (forall j :: 0 <= j <= |s| ==> !OccursAt(s, pat, j)) ==> ReplaceFirst(s, pat, rep) == s
    ensures forall k :: 0 <= k <= |s| && OccursAt(s, pat, k) && (forall j :: 0 <= j < k ==> !OccursAt(s, pat, j)) ==>
      ReplaceFirst(s, pat, rep) == s[..k] + rep + s[k + |pat|..]
  {
    var r := IndexOf(s, pat);
    if r.Some? {
      forall k | 0 <= k <= |s| && OccursAt(s, pat, k) && (forall j :: 0 <= j < k ==> !OccursAt(s, pat, j))
        ensures k == r.value
      {
      }
    }
  }

  /** `s` with its trailing whitespace removed. */
  function TrimEnd(s: string): (r: string)
    ensures r <= s
  {
    if s != [] && IsSpace(s[|s| - 1]) then TrimEnd(s[..|s| - 1]) else s
  }

  lemma {:induction false} DropTrailingIsTrimEnd(s: string, lo: nat, hi: nat)
    requires lo <= hi <= |s|
    ensures s[lo..DropTrailingSpaces(s, lo, hi)] == TrimEnd(s[lo..hi])
    decreases hi
  {
    if lo < hi && IsSpace(s[hi - 1]) {
      DropTrailingIsTrimEnd(s, lo, hi - 1);
      assert s[lo..hi][..hi - lo - 1] == s[lo..hi - 1];
    }
  }

  /** Trimming is dropping the leading whitespace, then the trailing. */
  lemma TrimIsTrimEnd(s: string)
    ensures Trim(s) == TrimEnd(s[SkipSpaces(s, 0)..])
  {
    var k := SkipSpaces(s, 0);
    DropTrailingIsTrimEnd(s, k, |s|);
    assert s[k..|s|] == s[k..];
  }

  /** Trailing whitespace is removed from the second part only, unless that
      part is all whitespace. */
  lemma {:induction false} TrimEndAppend(a: string, b: string)
    ensures TrimEnd(a + b) == if Blank(b) then TrimEnd(a) else a + TrimEnd(b)
    decreases |b|
  {
    if b == [] {
      assert a + b == a;
    } else if IsSpace(b[|b| - 1]) {
      var b' := b[..|b| - 1];
      assert (a + b)[..|a + b| - 1] == a + b';
      TrimEndAppend(a, b');
      assert Blank(b) <==> Blank(b') by {
        if Blank(b') {
          forall i | 0 <= i < |b| ensures IsSpace(b[i]) {
            if i < |b'| { assert b[i] == b'[i]; }
          }
        }
        if Blank(b) {
          forall i | 0 <= i < |b'| ensures IsSpace(b'[i]) {
            assert b'[i] == b[i];
          }
        }
      }
    } else {
      assert (a + b)[|a + b| - 1] == b[|b| - 1];
    }
  }

  /** Trimming a string with no leading whitespace only drops its trailing whitespace. */
  lemma TrimNoLeadingSpace(s: string)
    requires s == [] || !IsSpace(s[0])
    ensures Trim(s) == TrimEnd(s)
  {
    TrimIsTrimEnd(s);
    assert s[0..] == s;
  }

  /** `(a + " " + b).trim()` for an `a` that neither starts nor ends with
      whitespace: `a` alone when `b` is blank, otherwise `a`, the space and
      `b` without its trailing whitespace. */
  lemma TrimJoin(a: string, b: string)
    requires a != [] && !IsSpace(a[0]) && !IsSpace(a[|a| - 1])
    ensures Trim(a + " " + b) == if Blank(b) then a else a + " " + TrimEnd(b)
  {
    var t := " " + b;
    assert a + " " + b == a + t;
    assert (a + t)[0] == a[0];
    TrimNoLeadingSpace(a + t);
    TrimEndAppend(a, t);
    BlankAfterSpace(b);
    if Blank(b) {
      assert TrimEnd(a) == a;
    } else {
      TrimEndAppend(" ", b);
      assert a + (" " + TrimEnd(b)) == a + " " + TrimEnd(b);
    }
  }

  lemma BlankAfterSpace(b: string)
    ensures Blank(" " + b) <==> Blank(b)
  {
    assert forall i :: 0 <= i < |b| ==> b[i] == (" " + b)[i + 1];
  }

  /** `\w` in a JavaScript regular expression without the `u` flag. */
  predicate IsWordChar(c: char) {
    ('a' <= c <= 'z') || ('A' <= c <= 'Z') || ('0' <= c <= '9') || c == '_'
  }

  /** The longest prefix of `s` made of word characters: what a greedy `\w*` matches. */
  function WordRun(s: string): (r: string)
    ensures r <= s
    ensures forall i :: 0 <= i < |r| ==> IsWordChar(r[i])
    ensures |r| == |s| || !IsWordChar(s[|r|])
  {
    if s != [] && IsWordChar(s[0]) then [s[0]] + WordRun(s[1..]) else []
  }

  /** The greedy match is the only word-character prefix that a non-word
      character (or the end) follows. */
  lemma {:induction false} WordRunUnique(s: string, w: string)
    requires w <= s
    requires forall i :: 0 <= i < |w| ==> IsWordChar(w[i])
    requires |w| == |s| || !IsWordChar(s[|w|])
    ensures WordRun(s) == w
    decreases |w|
  {
    if w != [] {
      assert s[1..][|w| - 1..] == s[|w|..];
      WordRunUnique(s[1..], w[1..]);
      assert w == [s[0]] + w[1..];
    } else if s != [] {
      assert !IsWordChar(s[0]);
    }
  }

  function DigitChar(d: nat): (c: char)
    requires d < 10
    ensures '0' <= c <= '9'
  {
    "0123456789"[d]
  }

  function DigitValue(c: char): nat
    requires '0' <= c <= '9'
  {
    (c as int - '0' as int) as nat
  }

  predicate AllDigits(s: string) {
    forall i :: 0 <= i < |s| ==> '0' <= s[i] <= '9'
  }

  /** The decimal rendering of `n`, as `${n}` writes a non-negative integer. */
  function NatToString(n: nat): (r: string)
    ensures r != [] && AllDigits(r)
  {
    if n < 10 then [DigitChar(n)] else NatToString(n / 10) + [DigitChar(n % 10)]
  }

  /** The value of a string of decimal digits, as `parseInt` reads it. */
  function ParseNat(s: string): nat
    requires AllDigits(s)
  {
    if s == [] then 0 else 10 * ParseNat(s[..|s| - 1]) + DigitValue(s[|s| - 1])
  }

  /** `parseInt(String(n)) == n`: rendering an id into a URL and parsing it back
      on the server gives the same id. */
  lemma {:induction false} ParseNatToString(n: nat)
    ensures ParseNat(NatToString(n)) == n
  {
    if n >= 10 {
      var s := NatToString(n);
      assert s[..|s| - 1] == NatToString(n / 10);
      ParseNatToString(n / 10);
    }
  }

  /** Distinct ids render as distinct strings, so the `fileN` form keys are distinct. */
  lemma NatToStringInjective(m: nat, n: nat)
    ensures NatToString(m) == NatToString(n) ==> m == n
  {
    ParseNatToString(m);
    ParseNatToString(n);
  }
}

/** String operations the components rely on, written out with the JavaScript
    semantics the source uses: truthiness, `\s` in a regular expression,
    `startsWith`, `split(c)[0]`, `toLowerCase` (ASCII), `parseInt`, and the
    text order the data service sorts by. */
module Text {
  import opened Wrappers

  /** JavaScript truthiness of a possibly absent string: present and non-empty. */
  predicate Truthy(s: Option<string>) {
    s.Some? && s.value != ""
  }

  /** `s || fallback` on a possibly absent string. */
  function OrElse(s: Option<string>, fallback: string): string {
    if Truthy(s) then s.value else fallback
  }

  // ---------------------------------------------------------------------------
  // `\s` and the email pattern `^\S+@\S+$`
  // ---------------------------------------------------------------------------

  /** The characters `\s` matches in a JavaScript regular expression:
      the ECMAScript WhiteSpace and LineTerminator characters. */
  predicate IsSpace(c: char) {
    || c == '\t' || c == '\n' || c == '\U{000B}' || c == '\U{000C}' || c == '\r'
    || c == ' ' || c == '\U{00A0}' || c == '\U{1680}'
    || ('\U{2000}' <= c <= '\U{200A}')
    || c == '\U{2028}' || c == '\U{2029}' || c == '\U{202F}' || c == '\U{205F}'
    || c == '\U{3000}' || c == '\U{FEFF}'
  }

  predicate NoSpace(s: string) {
    forall i :: 0 <= i < |s| ==> !IsSpace(s[i])
  }

  /** The test `/^\S+@\S+$/i.test(s)`: no whitespace anywhere, and an '@'
      with at least one character on each side of it. (`\S` also matches
      '@', so any inner '@' can serve as the separator; the `i` flag changes
      nothing for this pattern.) */
  predicate MatchesEmailPattern(s: string) {
    |s| >= 3 && NoSpace(s) && '@' in s[1..|s| - 1]
  }

  /** Every `user@domain` with non-empty, whitespace-free halves matches. */
  lemma EmailPatternAccepts(user: string, domain: string)
    requires user != [] && domain != []
    requires NoSpace(user) && NoSpace(domain)
    ensures MatchesEmailPattern(user + "@" + domain)
  {
    var s := user + "@" + domain;
    assert s[|user|] == '@';
    assert s[1..|s| - 1][|user| - 1] == '@';
    forall i | 0 <= i < |s| ensures !IsSpace(s[i]) {
      if i < |user| {
        assert s[i] == user[i];
      } else if i > |user| {
        assert s[i] == domain[i - |user| - 1];
      }
    }
  }

  /** Conversely, every matching string splits as `user@domain` with
      non-empty, whitespace-free halves. */
  lemma EmailPatternSplits(s: string) returns (user: string, domain: string)
    requires MatchesEmailPattern(s)
    ensures s == user + "@" + domain
    ensures user != [] && domain != []
    ensures NoSpace(user) && NoSpace(domain)
  {
    var inner := s[1..|s| - 1];
    var k :| 0 <= k < |inner| && inner[k] == '@';
    assert s[k + 1] == '@';
    user, domain := s[..k + 1], s[k + 2..];
    assert s == user + "@" + domain;
  }

  /** A string with a whitespace character never matches. */
  lemma EmailPatternRejectsSpace(s: string, i: nat)
    requires i < |s| && IsSpace(s[i])
    ensures !MatchesEmailPattern(s)
  {
  }

  // ---------------------------------------------------------------------------
  // startsWith, split(c)[0]
  // ---------------------------------------------------------------------------

  predicate StartsWith(s: string, prefix: string) {
    |prefix| <= |s| && s[..|prefix|] == prefix
  }

  /** `s.split(c)[0]`: the longest prefix of `s` without `c`. */
  function BeforeFirst(s: string, c: char): (r: string)
    ensures r <= s
    ensures c !in r
    ensures |r| < |s| ==> s[|r|] == c
  {
    if s == [] || s[0] == c then [] else [s[0]] + BeforeFirst(s[1..], c)
  }

  /** What follows the first `c` in `s`, or "" when there is none. */
  function AfterFirst(s: string, c: char): string {
    var b := BeforeFirst(s, c);
    if |b| < |s| then s[|b| + 1..] else ""
  }

  /** A string with a `c` in it is the part before its first `c`, that `c`,
      and the rest. */
  lemma SplitAround(s: string, c: char)
    requires c in s
    ensures s == BeforeFirst(s, c) + [c] + AfterFirst(s, c)
  {
  }

  /** Splitting `p + [c] + q` at its first `c`, when `p` has none, gives back
      `p` and `q`. */
  lemma {:induction false} SplitJoined(p: string, c: char, q: string)
    requires c !in p
    ensures BeforeFirst(p + [c] + q, c) == p
    ensures AfterFirst(p + [c] + q, c) == q
  {
    var s := p + [c] + q;
    if p == [] {
      assert s[0] == c;
    } else {
      assert s[0] == p[0];
      assert s[1..] == p[1..] + [c] + q;
      SplitJoined(p[1..], c, q);
      assert BeforeFirst(s, c) == [p[0]] + p[1..];
    }
  }

  /** A string without `c` is its own part before the first `c`. */
  lemma {:induction false} BeforeFirstAbsent(s: string, c: char)
    requires c !in s
    ensures BeforeFirst(s, c) == s
  {
    if s != [] {
      BeforeFirstAbsent(s[1..], c);
    }
  }

  // ---------------------------------------------------------------------------
  // toLowerCase
  // ---------------------------------------------------------------------------

  function LowerChar(c: char): char {
    if 'A' <= c <= 'Z' then (c as int - 'A' as int + 'a' as int) as char else c
  }

  /** `s.toLowerCase()` on the ASCII letters; other characters are kept. */
  function Lower(s: string): (r: string)
    ensures |r| == |s|
    ensures forall i :: 0 <= i < |s| ==> r[i] == LowerChar(s[i])
  {
    if s == [] then [] else [LowerChar(s[0])] + Lower(s[1..])
  }

  /** Lower-casing twice is lower-casing once. */
  lemma LowerIdempotent(s: string)
    ensures Lower(Lower(s)) == Lower(s)
  {
  }

  // ---------------------------------------------------------------------------
  // parseInt and the decimal spelling of a number
  // ---------------------------------------------------------------------------

  predicate IsDigit(c: char) {
    '0' <= c <= '9'
  }

  predicate AllDigits(s: string) {
    forall i :: 0 <= i < |s| ==> IsDigit(s[i])
  }

  function TrimStart(s: string): string {
    if s != [] && IsSpace(s[0]) then TrimStart(s[1..]) else s
  }

  /** The longest prefix of decimal digits. */
  function LeadingDigits(s: string): (d: string)
    ensures d <= s && AllDigits(d)
  {
    if s != [] && IsDigit(s[0]) then [s[0]] + LeadingDigits(s[1..]) else []
  }

  function DigitsValue(d: string): nat
    requires AllDigits(d)
  {
    if d == [] then 0 else DigitsValue(d[..|d| - 1]) * 10 + (d[|d| - 1] as int - '0' as int)
  }

  /** `parseInt(s)` with the default radix: leading whitespace is skipped,
      then an optional sign, then the longest run of decimal digits;
      `None` stands for NaN (no digits). */
  function ParseInt(s: string): Option<int> {
    var t := TrimStart(s);
    var signed := t != [] && (t[0] == '-' || t[0] == '+');
    var d := LeadingDigits(if signed then t[1..] else t);
    var v: int := if d == [] then 0 else DigitsValue(d);
    if d == [] then None
    else if signed && t[0] == '-' then Some(-v)
    else Some(v)
  }

  /** The decimal spelling of a natural number, as `String(n)` writes it. */
  function ShowNat(n: nat): (s: string)
    ensures s != [] && AllDigits(s)
  {
    (if n < 10 then "" else ShowNat(n / 10)) + [('0' as int + n % 10) as char]
  }

  lemma {:induction false} DigitsValueShowNat(n: nat)
    ensures DigitsValue(ShowNat(n)) == n
  {
    var s := ShowNat(n);
    var front := if n < 10 then "" else ShowNat(n / 10);
    assert s[..|s| - 1] == front;
    if n >= 10 {
      DigitsValueShowNat(n / 10);
    }
  }

  lemma {:induction false} LeadingDigitsAll(s: string)
    requires AllDigits(s)
    ensures LeadingDigits(s) == s
  {
    if s != [] {
      LeadingDigitsAll(s[1..]);
    }
  }

  /** `parseInt` reads back every natural number from its decimal spelling. */
  lemma ParseIntShowNat(n: nat)
    ensures ParseInt(ShowNat(n)) == Some(n)
  {
    var s := ShowNat(n);
    assert !IsSpace(s[0]);
    assert TrimStart(s) == s;
    LeadingDigitsAll(s);
    DigitsValueShowNat(n);
  }

  // ---------------------------------------------------------------------------
  // Text order
  // ---------------------------------------------------------------------------

  /** Lexicographic order by code point: `a` is a prefix of `b`, or `a` has
      the smaller character at the first place they differ. */
  predicate LexLe(a: string, b: string) {
    if a == [] then true
    else if b == [] then false
    else if a[0] != b[0] then a[0] < b[0]
    else LexLe(a[1..], b[1..])
  }

  lemma {:induction false} LexLeTotal(a: string, b: string)
    ensures LexLe(a, b) || LexLe(b, a)
  {
    if a != [] && b != [] && a[0] == b[0] {
      LexLeTotal(a[1..], b[1..]);
    }
  }

  lemma {:induction false} LexLeTransitive(a: string, b: string, c: string)
    requires LexLe(a, b) && LexLe(b, c)
    ensures LexLe(a, c)
  {
    if a != [] && b != [] && c != [] && a[0] == b[0] && b[0] == c[0] {
      LexLeTransitive(a[1..], b[1..], c[1..]);
    }
  }

  lemma {:induction false} LexLeAntisymmetric(a: string, b: string)
    requires LexLe(a, b) && LexLe(b, a)
    ensures a == b
  {
    if a != [] && b != [] {
      LexLeAntisymmetric(a[1..], b[1..]);
      assert a == [a[0]] + a[1..];
      assert b == [b[0]] + b[1..];
    }
  }
}

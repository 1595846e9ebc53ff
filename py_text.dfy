/** The Python string built-ins the application relies on: `str.isspace`,
    `str.lower`, `str.strip`, `str.split()` with `" ".join`, `str(int)` and
    `int(str)`. A Dafny `string` is a sequence of Unicode scalar values, as a
    Python `str` is a sequence of code points, so lengths agree. */
module PyText {
  import opened Wrappers

  /** Python's `str.isspace()` on one character: exactly the characters that
      `str.split()` and `str.strip()` without arguments treat as blanks. */
  predicate IsSpace(c: char) {
    || c == ' '
    || '\t' <= c <= '\r'
    || '\U{1C}' <= c <= '\U{1F}'
    || c == '\U{85}'
    || c == '\U{A0}'
    || c == '\U{1680}'
    || '\U{2000}' <= c <= '\U{200A}'
    || c == '\U{2028}'
    || c == '\U{2029}'
    || c == '\U{202F}'
    || c == '\U{205F}'
    || c == '\U{3000}'
  }

  predicate IsDigit(c: char) {
    '0' <= c <= '9'
  }

  predicate AllDigits(d: string) {
    forall k :: 0 <= k < |d| ==> IsDigit(d[k])
  }

  function StartsWith(s: string, prefix: string): bool {
    |prefix| <= |s| && s[..|prefix|] == prefix
  }

  // ---------------------------------------------------------------------------
  // str.lower()
  // ---------------------------------------------------------------------------

  function LowerChar(c: char): char {
    if 'A' <= c <= 'Z' then (c as int + 32) as char else c
  }

  /** `s.lower()` on the ASCII letters; every other character is kept. */
  function Lower(s: string): string {
    if s == [] then [] else [LowerChar(s[0])] + Lower(s[1..])
  }

  /** Lower-casing works character by character and keeps the length. */
  lemma {:induction false} LowerAt(s: string)
    ensures |Lower(s)| == |s|
    ensures forall i :: 0 <= i < |s| ==> Lower(s)[i] == LowerChar(s[i])
  {
    if s != [] {
      LowerAt(s[1..]);
    }
  }

  /** Text with no upper-case ASCII letter is its own lower case. */
  lemma {:induction false} LowerOfLowercase(s: string)
    requires forall i :: 0 <= i < |s| ==> !('A' <= s[i] <= 'Z')
    ensures Lower(s) == s
  {
    if s != [] {
      LowerOfLowercase(s[1..]);
    }
  }

  /** Lower-casing twice is lower-casing once. */
  lemma {:induction false} LowerIdempotent(s: string)
    ensures Lower(Lower(s)) == Lower(s)
  {
    LowerAt(s);
    LowerOfLowercase(Lower(s));
  }

  // ---------------------------------------------------------------------------
  // str.strip()
  // ---------------------------------------------------------------------------

  /** The number of blanks `s` starts with. */
  function LeadingSpaces(s: string): (n: nat)
    ensures n <= |s|
    ensures n == |s| || !IsSpace(s[n])
  {
    if s != [] && IsSpace(s[0]) then 1 + LeadingSpaces(s[1..]) else 0
  }

  lemma {:induction false} LeadingSpacesAreBlank(s: string)
    ensures forall k :: 0 <= k < LeadingSpaces(s) ==> IsSpace(s[k])
  {
    if s != [] && IsSpace(s[0]) {
      LeadingSpacesAreBlank(s[1..]);
      assert forall k :: 1 <= k < LeadingSpaces(s) ==> s[k] == s[1..][k - 1];
    }
  }

  /** The number of blanks `s` ends with. */
  function TrailingSpaces(s: string): (n: nat)
    ensures n <= |s|
    ensures n == |s| || !IsSpace(s[|s| - 1 - n])
  {
    if s != [] && IsSpace(s[|s| - 1]) then 1 + TrailingSpaces(s[..|s| - 1]) else 0
  }

  /** `s.strip()`: the text between the leading and the trailing blanks. */
  function Strip(s: string): (r: string)
    ensures r == [] || (!IsSpace(r[0]) && !IsSpace(r[|r| - 1]))
  {
    var t := s[LeadingSpaces(s)..];
    t[..|t| - TrailingSpaces(t)]
  }

  lemma {:induction false} TrailingSpacesAreBlank(s: string)
    ensures forall k :: |s| - TrailingSpaces(s) <= k < |s| ==> IsSpace(s[k])
  {
    if s != [] && IsSpace(s[|s| - 1]) {
      var p := s[..|s| - 1];
      TrailingSpacesAreBlank(p);
      assert forall k :: |s| - TrailingSpaces(s) <= k < |s| - 1 ==> s[k] == p[k];
    }
  }

  /** The strip is empty exactly when the text is all blanks. */
  lemma {:induction false} StripEmptyIffBlank(s: string)
    ensures Strip(s) == [] <==> forall k :: 0 <= k < |s| ==> IsSpace(s[k])
  {
    var lead := LeadingSpaces(s);
    LeadingSpacesAreBlank(s);
    if lead < |s| {
      var t := s[lead..];
      TrailingSpacesAreBlank(t);
      assert t[0] == s[lead] && !IsSpace(t[0]);
      assert TrailingSpaces(t) < |t|;
      assert Strip(s)[0] == t[0];
    }
  }

  /** A string that neither starts nor ends with a blank is its own strip. */
  lemma {:induction false} StripUnchanged(s: string)
    requires s != [] && !IsSpace(s[0]) && !IsSpace(s[|s| - 1])
    ensures Strip(s) == s
  {
    assert LeadingSpaces(s) == 0;
    assert s[0..] == s;
    assert TrailingSpaces(s) == 0;
  }

  // ---------------------------------------------------------------------------
  // str.split() and str.join()
  // ---------------------------------------------------------------------------

  /** A word as `str.split()` yields it: non-empty and blank-free. */
  predicate IsWord(w: string) {
    w != [] && forall k :: 0 <= k < |w| ==> !IsSpace(w[k])
  }

  predicate AllWords(ws: seq<string>) {
    forall i :: 0 <= i < |ws| ==> IsWord(ws[i])
  }

  /** The length of the blank-free run `s` starts with. */
  function WordLen(s: string): (n: nat)
    ensures n <= |s|
    ensures n == |s| || IsSpace(s[n])
  {
    if s != [] && !IsSpace(s[0]) then 1 + WordLen(s[1..]) else 0
  }

  lemma {:induction false} WordLenIsWord(s: string)
    ensures forall k :: 0 <= k < WordLen(s) ==> !IsSpace(s[k])
  {
    if s != [] && !IsSpace(s[0]) {
      WordLenIsWord(s[1..]);
      assert forall k :: 1 <= k < WordLen(s) ==> s[k] == s[1..][k - 1];
    }
  }

  /** `s.split()`: the maximal blank-free runs of `s`, in order. */
  function Split(s: string): (ws: seq<string>)
    decreases |s|
  {
    if s == [] then []
    else if IsSpace(s[0]) then Split(s[1..])
    else
      var n := WordLen(s);
      [s[..n]] + Split(s[n..])
  }

  /** Every piece `split()` returns is a word. */
  lemma {:induction false} SplitWords(s: string)
    ensures AllWords(Split(s))
    decreases |s|
  {
    if s != [] {
      if IsSpace(s[0]) {
        SplitWords(s[1..]);
      } else {
        var n := WordLen(s);
        WordLenIsWord(s);
        SplitWords(s[n..]);
      }
    }
  }

  /** `sep.join(ws)`. */
  function Join(sep: string, ws: seq<string>): string {
    if ws == [] then ""
    else if |ws| == 1 then ws[0]
    else ws[0] + sep + Join(sep, ws[1..])
  }

  /** Each piece preceded by `sep`, all concatenated. */
  function Prefixed(sep: string, ws: seq<string>): string {
    if ws == [] then "" else sep + ws[0] + Prefixed(sep, ws[1..])
  }

  /** A joined text is the first piece followed by every other piece, each
      after the separator. */
  lemma {:induction false} JoinIsFirstThenPrefixed(sep: string, ws: seq<string>)
    requires ws != []
    ensures Join(sep, ws) == ws[0] + Prefixed(sep, ws[1..])
  {
    if |ws| > 1 {
      JoinIsFirstThenPrefixed(sep, ws[1..]);
      assert ws[1..][1..] == ws[2..];
    }
  }

  /** Prefixing distributes over concatenation. */
  lemma {:induction false} PrefixedAppend(sep: string, a: seq<string>, b: seq<string>)
    ensures Prefixed(sep, a + b) == Prefixed(sep, a) + Prefixed(sep, b)
  {
    if a != [] {
      assert (a + b)[1..] == a[1..] + b;
      PrefixedAppend(sep, a[1..], b);
    } else {
      assert a + b == b;
    }
  }

  /** A join of a first piece and optional further ones: the first piece,
      then each further piece after the separator. */
  lemma {:induction false} JoinOptionals(sep: string, first: string, a: seq<string>, b: seq<string>, c: seq<string>)
    ensures Join(sep, [first] + a + b + c) == first + Prefixed(sep, a) + Prefixed(sep, b) + Prefixed(sep, c)
  {
    var ws := [first] + a + b + c;
    assert ws[1..] == (a + b) + c;
    JoinIsFirstThenPrefixed(sep, ws);
    PrefixedAppend(sep, a + b, c);
    PrefixedAppend(sep, a, b);
    var pa, pb, pc := Prefixed(sep, a), Prefixed(sep, b), Prefixed(sep, c);
    assert first + (pa + pb + pc) == first + pa + pb + pc;
  }

  /** `" ".join(s.split())`: every blank run becomes one space and the ends
      are trimmed. */
  function Collapse(s: string): string {
    Join(" ", Split(s))
  }

  /** A joined text starts with the first piece. */
  lemma {:induction false} JoinStartsWith(sep: string, ws: seq<string>)
    requires ws != []
    ensures StartsWith(Join(sep, ws), ws[0])
  {
    if |ws| > 1 {
      assert Join(sep, ws) == ws[0] + (sep + Join(sep, ws[1..]));
    }
  }

  /** No blank other than a single space, and none at either end. */
  predicate SingleSpaced(r: string) {
    forall i :: 0 <= i < |r| && IsSpace(r[i]) ==>
      r[i] == ' ' && 0 < i < |r| - 1 && !IsSpace(r[i - 1]) && !IsSpace(r[i + 1])
  }

  lemma {:induction false} JoinEnds(ws: seq<string>)
    requires |ws| > 0 && AllWords(ws)
    ensures var r := Join(" ", ws);
      |r| >= |ws[0]| && r[..|ws[0]|] == ws[0] && !IsSpace(r[0]) && !IsSpace(r[|r| - 1])
  {
    if |ws| > 1 {
      JoinEnds(ws[1..]);
    }
  }

  lemma {:induction false} JoinSingleSpaced(ws: seq<string>)
    requires AllWords(ws)
    ensures SingleSpaced(Join(" ", ws))
  {
    if |ws| == 1 {
      assert Join(" ", ws) == ws[0];
    } else if |ws| > 1 {
      JoinSingleSpaced(ws[1..]);
      JoinEnds(ws[1..]);
      var w, rest := ws[0], Join(" ", ws[1..]);
      var r := w + " " + rest;
      assert Join(" ", ws) == r;
      forall i | 0 <= i < |r|
        ensures IsSpace(r[i]) ==>
          r[i] == ' ' && 0 < i < |r| - 1 && !IsSpace(r[i - 1]) && !IsSpace(r[i + 1])
      {
        if i < |w| {
          assert r[i] == w[i];
        } else if i == |w| {
          assert r[i - 1] == w[|w| - 1];
          assert r[i + 1] == rest[0];
        } else {
          var j := i - |w| - 1;
          assert r[i] == rest[j];
          if j > 0 {
            assert r[i - 1] == rest[j - 1];
          }
          if j + 1 < |rest| {
            assert r[i + 1] == rest[j + 1];
          }
        }
      }
    }
  }

  /** A collapsed text has single inner spaces and no blank at either end. */
  lemma {:induction false} CollapseSingleSpaced(s: string)
    ensures SingleSpaced(Collapse(s))
  {
    SplitWords(s);
    JoinSingleSpaced(Split(s));
  }

  lemma {:induction false} SplitSkipsBlank(c: char, x: string)
    requires IsSpace(c)
    ensures Split([c] + x) == Split(x)
  {
    assert ([c] + x)[1..] == x;
  }

  lemma {:induction false} WordLenOfWord(w: string, rest: string)
    requires IsWord(w)
    requires rest == [] || IsSpace(rest[0])
    ensures WordLen(w + rest) == |w|
  {
    var r := w + rest;
    assert r[0] == w[0];
    if |w| == 1 {
      assert r[1..] == rest;
    } else {
      assert r[1..] == w[1..] + rest;
      WordLenOfWord(w[1..], rest);
    }
  }

  /** A word followed by a blank or by nothing is split off whole. */
  lemma {:induction false} SplitWordFirst(w: string, rest: string)
    requires IsWord(w)
    requires rest == [] || IsSpace(rest[0])
    ensures Split(w + rest) == [w] + Split(rest)
  {
    var r := w + rest;
    assert r[0] == w[0];
    WordLenOfWord(w, rest);
    assert r[..|w|] == w;
    assert r[|w|..] == rest;
  }

  /** Splitting a space-joined list of words gives the words back. */
  lemma {:induction false} SplitJoin(ws: seq<string>)
    requires AllWords(ws)
    ensures Split(Join(" ", ws)) == ws
  {
    if |ws| == 1 {
      SplitWordFirst(ws[0], "");
      assert ws[0] + "" == ws[0];
    } else if |ws| > 1 {
      var tail := Join(" ", ws[1..]);
      assert Join(" ", ws) == ws[0] + (" " + tail);
      SplitWordFirst(ws[0], " " + tail);
      SplitSkipsBlank(' ', tail);
      SplitJoin(ws[1..]);
      assert [ws[0]] + ws[1..] == ws;
    }
  }

  /** Collapsing whitespace twice is collapsing it once. */
  lemma {:induction false} CollapseIdempotent(s: string)
    ensures Collapse(Collapse(s)) == Collapse(s)
  {
    SplitWords(s);
    SplitJoin(Split(s));
  }

  // ---- collapsing only touches blanks ----

  /** The non-blank characters of `s`, in order. */
  function NonBlank(s: string): string {
    if s == [] then [] else (if IsSpace(s[0]) then [] else [s[0]]) + NonBlank(s[1..])
  }

  function Concat(ws: seq<string>): string {
    if ws == [] then [] else ws[0] + Concat(ws[1..])
  }

  lemma {:induction false} NonBlankAppend(a: string, b: string)
    ensures NonBlank(a + b) == NonBlank(a) + NonBlank(b)
  {
    if a == [] {
      assert a + b == b;
    } else {
      var c := if IsSpace(a[0]) then [] else [a[0]];
      assert (a + b)[0] == a[0];
      assert (a + b)[1..] == a[1..] + b;
      NonBlankAppend(a[1..], b);
      assert NonBlank(a + b) == c + NonBlank(a[1..] + b);
      assert NonBlank(a) == c + NonBlank(a[1..]);
      assert c + (NonBlank(a[1..]) + NonBlank(b)) == (c + NonBlank(a[1..])) + NonBlank(b);
    }
  }

  lemma {:induction false} NonBlankOfBlanks(s: string)
    requires forall k :: 0 <= k < |s| ==> IsSpace(s[k])
    ensures NonBlank(s) == []
  {
    if s != [] {
      NonBlankOfBlanks(s[1..]);
    }
  }

  lemma {:induction false} NonBlankOfWord(s: string)
    requires forall k :: 0 <= k < |s| ==> !IsSpace(s[k])
    ensures NonBlank(s) == s
  {
    if s != [] {
      NonBlankOfWord(s[1..]);
    }
  }

  lemma {:induction false} NonBlankSplit(s: string)
    ensures NonBlank(s) == Concat(Split(s))
    decreases |s|
  {
    if s != [] {
      if IsSpace(s[0]) {
        NonBlankSplit(s[1..]);
      } else {
        var n := WordLen(s);
        WordLenIsWord(s);
        assert s == s[..n] + s[n..];
        NonBlankAppend(s[..n], s[n..]);
        NonBlankOfWord(s[..n]);
        NonBlankSplit(s[n..]);
      }
    }
  }

  lemma {:induction false} NonBlankJoin(ws: seq<string>)
    requires AllWords(ws)
    ensures NonBlank(Join(" ", ws)) == Concat(ws)
  {
    if |ws| == 1 {
      NonBlankOfWord(ws[0]);
      assert Concat(ws) == ws[0] + Concat([]);
    } else if |ws| > 1 {
      NonBlankJoin(ws[1..]);
      NonBlankAppend(ws[0] + " ", Join(" ", ws[1..]));
      NonBlankAppend(ws[0], " ");
      NonBlankOfWord(ws[0]);
      assert NonBlank(" ") == [];
      assert Join(" ", ws) == (ws[0] + " ") + Join(" ", ws[1..]);
    }
  }

  /** Collapsing changes blanks only: the other characters survive, in order. */
  lemma {:induction false} CollapseKeepsText(s: string)
    ensures NonBlank(Collapse(s)) == NonBlank(s)
  {
    NonBlankSplit(s);
    SplitWords(s);
    NonBlankJoin(Split(s));
  }

  // ---------------------------------------------------------------------------
  // str(int) and int(str)
  // ---------------------------------------------------------------------------

  function DigitChar(d: nat): (c: char)
    requires d < 10
    ensures IsDigit(c)
  {
    ('0' as int + d) as char
  }

  function DigitValue(c: char): nat
    requires IsDigit(c)
  {
    c as int - '0' as int
  }

  /** `str(n)` for a natural number. */
  function NatToString(n: nat): (s: string)
    ensures s != [] && AllDigits(s)
  {
    if n < 10 then [DigitChar(n)] else NatToString(n / 10) + [DigitChar(n % 10)]
  }

  /** `str(i)`: an optional minus sign and the decimal digits. */
  function IntToString(i: int): string {
    if i < 0 then "-" + NatToString(-i) else NatToString(i)
  }

  function DigitsValue(d: string): nat
    requires AllDigits(d)
  {
    if d == [] then 0 else 10 * DigitsValue(d[..|d| - 1]) + DigitValue(d[|d| - 1])
  }

  /** Digits as `int()` accepts them: at least one, and every `_` is followed
      by a digit and preceded by something, which then can only be a digit. */
  predicate Grouped(d: string) {
    && d != []
    && (forall k :: 0 <= k < |d| ==> IsDigit(d[k]) || d[k] == '_')
    && (forall k :: 0 <= k < |d| && d[k] == '_' ==> 0 < k && k + 1 < |d| && IsDigit(d[k + 1]))
  }

  /** The digits with the group separators taken out. */
  function Ungroup(d: string): (r: string)
    ensures (forall k :: 0 <= k < |d| ==> IsDigit(d[k]) || d[k] == '_') ==> AllDigits(r)
    ensures AllDigits(d) ==> r == d
  {
    if d == [] then []
    else Ungroup(d[..|d| - 1]) + (if d[|d| - 1] == '_' then [] else [d[|d| - 1]])
  }

  function ParseDigits(d: string): Option<nat> {
    if Grouped(d) then Some(DigitsValue(Ungroup(d))) else None
  }

  /** `int(t)` for a string with no blanks around it: an optional sign and
      grouped decimal digits. */
  function ParseSigned(t: string): Option<int> {
    if t != [] && (t[0] == '-' || t[0] == '+') then
      match ParseDigits(t[1..])
      case Some(n) =>
        var v: int := if t[0] == '-' then -(n as int) else n;
        Some(v)
      case None => None
    else
      match ParseDigits(t)
      case Some(n) => Some(n)
      case None => None
  }

  /** `int(s)` for a string: surrounding blanks, an optional sign, grouped
      decimal digits; None where Python raises ValueError. */
  function ParseInt(s: string): Option<int> {
    ParseSigned(Strip(s))
  }

  lemma {:induction false} NatToStringValue(n: nat)
    ensures DigitsValue(NatToString(n)) == n
  {
    if n >= 10 {
      NatToStringValue(n / 10);
      var s := NatToString(n);
      assert s[..|s| - 1] == NatToString(n / 10);
    }
  }

  lemma {:induction false} ParseDigitsOfDigits(d: string)
    requires d != [] && AllDigits(d)
    ensures ParseDigits(d) == Some(DigitsValue(d))
  {
    assert Grouped(d);
  }

  lemma {:induction false} ParseIntOfDigits(d: string)
    requires d != [] && AllDigits(d)
    ensures ParseInt(d) == Some(DigitsValue(d))
  {
    assert IsDigit(d[0]) && IsDigit(d[|d| - 1]);
    StripUnchanged(d);
    ParseDigitsOfDigits(d);
  }

  lemma {:induction false} ParseIntOfNegative(d: string)
    requires d != [] && AllDigits(d)
    ensures ParseInt("-" + d) == Some(-(DigitsValue(d) as int))
  {
    var s := "-" + d;
    assert s[0] == '-' && s[|s| - 1] == d[|d| - 1] && IsDigit(d[|d| - 1]);
    StripUnchanged(s);
    assert s[1..] == d;
    ParseDigitsOfDigits(d);
  }

  /** `int(str(i)) == i`. */
  lemma {:induction false} ParseIntRoundTrip(i: int)
    ensures ParseInt(IntToString(i)) == Some(i)
  {
    if i < 0 {
      var d := NatToString(-i);
      assert DigitsValue(d) == -i by { NatToStringValue(-i); }
      ParseIntOfNegative(d);
    } else {
      assert DigitsValue(NatToString(i)) == i by { NatToStringValue(i); }
      ParseIntOfDigits(NatToString(i));
    }
  }

  // ---------------------------------------------------------------------------
  // Ordering strings
  // ---------------------------------------------------------------------------

  /** Python's `a <= b` on two strings: code points compared from the left,
      a proper prefix first. */
  predicate LessEq(a: string, b: string)
    decreases |a|
  {
    a == [] || (b != [] && (a[0] < b[0] || (a[0] == b[0] && LessEq(a[1..], b[1..]))))
  }

  lemma {:induction false} LessEqTotal(a: string, b: string)
    ensures LessEq(a, b) || LessEq(b, a)
    decreases |a|
  {
    if a != [] && b != [] && a[0] == b[0] {
      LessEqTotal(a[1..], b[1..]);
    }
  }

  lemma {:induction false} LessEqAntisymmetric(a: string, b: string)
    requires LessEq(a, b) && LessEq(b, a)
    ensures a == b
    decreases |a|
  {
    if a != [] {
      LessEqAntisymmetric(a[1..], b[1..]);
      assert a == [a[0]] + a[1..] && b == [b[0]] + b[1..];
    }
  }

  lemma {:induction false} LessEqTransitive(a: string, b: string, c: string)
    requires LessEq(a, b) && LessEq(b, c)
    ensures LessEq(a, c)
    decreases |a|
  {
    if a != [] && a[0] == b[0] && b[0] == c[0] {
      LessEqTransitive(a[1..], b[1..], c[1..]);
    }
  }

  /** Two least elements of a set are the same string. */
  lemma LeastIsUnique()
    ensures forall a, b :: LessEq(a, b) && LessEq(b, a) ==> a == b
  {
    forall a, b | LessEq(a, b) && LessEq(b, a) ensures a == b {
      LessEqAntisymmetric(a, b);
    }
  }

  /** `m` is at most every string of `keys`. */
  predicate IsLeast(m: string, keys: set<string>) {
    forall x :: x in keys ==> LessEq(m, x)
  }

  /** Adding a string to a set: the smaller of it and the old least element
      is the new least element. */
  lemma {:induction false} LeastOfAdded(m: string, y: string, rest: set<string>)
    requires IsLeast(m, rest)
    ensures LessEq(y, m) ==> IsLeast(y, rest + {y})
    ensures !LessEq(y, m) ==> IsLeast(m, rest + {y})
  {
    LessEqTotal(y, y);
    LessEqTotal(m, y);
    if LessEq(y, m) {
      forall x | x in rest ensures LessEq(y, x) {
        LessEqTransitive(y, m, x);
      }
    }
  }

  /** Every non-empty finite set of strings has a least element. */
  lemma {:induction false} LeastExists(keys: set<string>)
    requires keys != {}
    ensures exists m :: m in keys && IsLeast(m, keys)
    decreases |keys|
  {
    var y :| y in keys;
    var rest := keys - {y};
    assert keys == rest + {y};
    if rest == {} {
      LessEqTotal(y, y);
      assert IsLeast(y, keys);
    } else {
      LeastExists(rest);
      var m :| m in rest && IsLeast(m, rest);
      LeastOfAdded(m, y, rest);
    }
  }

  /** `sorted(keys)`: every string of the set, each once, smallest first. */
  function Sorted(keys: set<string>): (r: seq<string>)
    ensures |r| == |keys|
    ensures forall x :: x in r <==> x in keys
    decreases |keys|
  {
    if keys == {} then []
    else
      LeastExists(keys);
      LeastIsUnique();
      var m :| m in keys && IsLeast(m, keys);
      [m] + Sorted(keys - {m})
  }
}

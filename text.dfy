/** String helpers shared by the backend and the frontend models: decimal
    digits, substring search, Python-style `split`, `strip`, `lower` and
    single-character `replace`. Strings are sequences of characters. */
module Text {
  import opened Wrappers

  predicate IsDigit(c: char) { '0' <= c <= '9' }

  predicate AllDigits(s: string) { forall i :: 0 <= i < |s| ==> IsDigit(s[i]) }

  function DigitChar(d: nat): (c: char)
    requires d < 10
    ensures IsDigit(c) && (c as int) - ('0' as int) == d
  {
    (d + '0' as int) as char
  }

  function DigitValue(c: char): (d: nat)
    requires IsDigit(c)
    ensures d < 10 && DigitChar(d) == c
  {
    (c as int) - ('0' as int)
  }

  /** Decimal rendering of a natural number, as Python's `str` and JavaScript's
      `String` produce it. */
  function NatToString(n: nat): (s: string)
    ensures |s| >= 1 && AllDigits(s)
    ensures s[0] == '0' ==> n == 0
    decreases n
  {
    if n < 10 then [DigitChar(n)] else NatToString(n / 10) + [DigitChar(n % 10)]
  }

  /** Decimal rendering of an integer, with a leading minus sign when negative. */
  function IntToString(i: int): (s: string)
    ensures |s| >= 1
    ensures (s[0] == '-') <==> i < 0
    ensures forall k :: 0 <= k < |s| ==> IsDigit(s[k]) || (k == 0 && s[k] == '-')
  {
    if i < 0 then "-" + NatToString(-i) else NatToString(i)
  }

  /** Value of a string of decimal digits (Python's `int` on such a string). */
  function ParseNat(s: string): nat
    requires AllDigits(s)
  {
    if |s| == 0 then 0 else 10 * ParseNat(s[..|s| - 1]) + DigitValue(s[|s| - 1])
  }

  lemma {:induction false} ParseNatToString(n: nat)
    ensures ParseNat(NatToString(n)) == n
    decreases n
  {
    var s := NatToString(n);
    if n >= 10 {
      ParseNatToString(n / 10);
      assert s[..|s| - 1] == NatToString(n / 10);
    }
  }

  lemma NatToStringInjective(a: nat, b: nat)
    ensures NatToString(a) == NatToString(b) <==> a == b
  {
    ParseNatToString(a);
    ParseNatToString(b);
  }

  lemma NatToStringZero(n: nat)
    ensures NatToString(n) == "0" <==> n == 0
  {
  }

  lemma SeqAssoc<T>(a: seq<T>, b: seq<T>, c: seq<T>)
    ensures (a + b) + c == a + (b + c)
  {
  }

  // ---- substrings -------------------------------------------------------------

  predicate OccursAt(s: string, sub: string, i: nat)
  {
    i + |sub| <= |s| && s[i..i + |sub|] == sub
  }

  /** First occurrence of `sub` in `s` at or after position `from`. */
  function IndexFrom(s: string, sub: string, from: nat): (r: Option<nat>)
    requires from <= |s|
    ensures r.Some? ==> from <= r.value && OccursAt(s, sub, r.value)
    ensures r.Some? ==> forall j :: from <= j < r.value ==> !OccursAt(s, sub, j)
    ensures r.None? ==> forall j :: from <= j <= |s| ==> !OccursAt(s, sub, j)
    decreases |s| - from
  {
    if from + |sub| > |s| then None
    else if s[from..from + |sub|] == sub then Some(from)
    else if from == |s| then None
    else IndexFrom(s, sub, from + 1)
  }

  function IndexOf(s: string, sub: string): (r: Option<nat>)
    ensures r.Some? ==> OccursAt(s, sub, r.value) && forall j :: 0 <= j < r.value ==> !OccursAt(s, sub, j)
    ensures r.None? ==> forall j :: 0 <= j <= |s| ==> !OccursAt(s, sub, j)
  {
    IndexFrom(s, sub, 0)
  }

  /** Python's `sub in s`, JavaScript's `s.includes(sub)`. */
  predicate Contains(s: string, sub: string)
  {
    IndexOf(s, sub).Some?
  }

  lemma ContainsIff(s: string, sub: string)
    ensures Contains(s, sub) <==> exists i :: 0 <= i <= |s| && OccursAt(s, sub, i)
  {
    if Contains(s, sub) {
      assert OccursAt(s, sub, IndexOf(s, sub).value);
    }
  }

  lemma OccursAtChar(s: string, c: char, i: nat)
    requires OccursAt(s, [c], i)
    ensures i < |s| && s[i] == c
  {
    assert s[i..i + 1][0] == s[i];
  }

  /** A one-character string occurs exactly when the character is held. */
  lemma ContainsChar(s: string, c: char)
    ensures Contains(s, [c]) <==> c in s
  {
    if c in s {
      var i :| 0 <= i < |s| && s[i] == c;
      assert s[i..i + 1] == [c];
      assert OccursAt(s, [c], i);
    }
    if Contains(s, [c]) {
      OccursAtChar(s, c, IndexOf(s, [c]).value);
    }
  }

  /** A string lacking one of the characters of `sub` does not contain it. */
  lemma MissingCharNotContains(s: string, sub: string, k: nat)
    requires k < |sub| && sub[k] !in s
    ensures !Contains(s, sub)
  {
    if Contains(s, sub) {
      OccursAtIndex(s, sub, IndexOf(s, sub).value, k);
      assert false;
    }
  }

  lemma OccursAtIndex(s: string, sub: string, i: nat, k: nat)
    requires OccursAt(s, sub, i) && k < |sub|
    ensures i + k < |s| && s[i + k] == sub[k]
  {
    assert s[i..i + |sub|][k] == s[i + k];
  }

  /** The pieces of a split on one character do not hold it. */
  lemma SplitPiecesFreeChar(s: string, c: char)
    ensures forall k :: 0 <= k < |Split(s, [c])| ==> c !in Split(s, [c])[k]
  {
    SplitPiecesFree(s, [c]);
    forall k | 0 <= k < |Split(s, [c])|
      ensures c !in Split(s, [c])[k]
    {
      ContainsChar(Split(s, [c])[k], c);
    }
  }

  /** A character that the string does not hold does not occur in it. */
  lemma IndexOfAbsent(s: string, c: char)
    requires c !in s
    ensures IndexOf(s, [c]).None?
  {
    var r := IndexOf(s, [c]);
    if r.Some? {
      OccursAtChar(s, c, r.value);
      assert false;
    }
  }

  /** The first occurrence of a character is right after a prefix free of it. */
  lemma IndexOfFirst(prefix: string, rest: string, c: char)
    requires c !in prefix && |rest| > 0 && rest[0] == c
    ensures IndexOf(prefix + rest, [c]) == Some(|prefix|)
  {
    var s := prefix + rest;
    assert s[|prefix|..|prefix| + 1] == [c];
    assert OccursAt(s, [c], |prefix|);
    var r := IndexOf(s, [c]);
    if r.Some? && r.value < |prefix| {
      OccursAtChar(s, c, r.value);
      assert false;
    }
  }

  predicate StartsWith(s: string, prefix: string)
  {
    |prefix| <= |s| && s[..|prefix|] == prefix
  }

  /** The first `n` elements: Python's `s[:n]` and JavaScript's
      `s.slice(0, n)` for `n >= 0`. */
  function Take<T>(s: seq<T>, n: nat): (r: seq<T>)
    ensures |r| == if |s| < n then |s| else n
    ensures r <= s
  {
    if |s| < n then s else s[..n]
  }

  // ---- split and join ---------------------------------------------------------

  /** Python's `s.split(sep)` for a non-empty separator: the pieces between
      successive leftmost non-overlapping occurrences of `sep`. */
  function Split(s: string, sep: string): (parts: seq<string>)
    requires |sep| > 0
    ensures |parts| >= 1
    decreases |s|
  {
    match IndexOf(s, sep)
    case None => [s]
    case Some(i) => [s[..i]] + Split(s[i + |sep|..], sep)
  }

  function Join(parts: seq<string>, sep: string): string
  {
    if |parts| == 0 then ""
    else if |parts| == 1 then parts[0]
    else parts[0] + sep + Join(parts[1..], sep)
  }

  lemma JoinCons(head: string, tail: seq<string>, sep: string)
    requires |tail| >= 1
    ensures Join([head] + tail, sep) == head + sep + Join(tail, sep)
  {
    assert ([head] + tail)[1..] == tail;
  }

  lemma {:induction false} JoinSplit(s: string, sep: string)
    requires |sep| > 0
    ensures Join(Split(s, sep), sep) == s
    decreases |s|
  {
    var r := IndexOf(s, sep);
    if r.Some? {
      var i := r.value;
      var rest := s[i + |sep|..];
      JoinSplit(rest, sep);
      JoinSplitStep(s, sep, i);
    }
  }

  lemma JoinSplitStep(s: string, sep: string, i: nat)
    requires |sep| > 0
    requires IndexOf(s, sep) == Some(i)
    requires Join(Split(s[i + |sep|..], sep), sep) == s[i + |sep|..]
    ensures Join(Split(s, sep), sep) == s
  {
    var rest := s[i + |sep|..];
    assert Split(s, sep) == [s[..i]] + Split(rest, sep);
    JoinCons(s[..i], Split(rest, sep), sep);
    assert s[i..i + |sep|] == sep;
    assert s == s[..i] + s[i..i + |sep|] + rest;
  }

  lemma {:induction false} SplitPiecesFree(s: string, sep: string)
    requires |sep| > 0
    ensures forall k :: 0 <= k < |Split(s, sep)| ==> !Contains(Split(s, sep)[k], sep)
    decreases |s|
  {
    match IndexOf(s, sep)
    case None =>
    case Some(i) =>
      var rest := s[i + |sep|..];
      SplitPiecesFree(rest, sep);
      var head := s[..i];
      forall j | 0 <= j <= |head|
        ensures !OccursAt(head, sep, j)
      {
        if OccursAt(head, sep, j) {
          assert head[j..j + |sep|] == s[j..j + |sep|];
          assert OccursAt(s, sep, j);
        }
      }
  }

  /** A string free of a one-character separator splits into itself. */
  lemma SplitWhole(a: string, c: char)
    ensures c !in a ==> Split(a, [c]) == [a]
  {
    if c !in a {
      IndexOfAbsent(a, c);
    }
  }

  /** Splitting at the first separator, which follows a separator-free piece. */
  lemma SplitAt(a: string, b: string, c: char)
    requires c !in a
    ensures Split(a + [c] + b, [c]) == [a] + Split(b, [c])
  {
    var s := a + [c] + b;
    SeqAssoc(a, [c], b);
    IndexOfFirst(a, [c] + b, c);
    assert s[..|a|] == a;
    assert s[|a| + 1..] == b;
  }

  /** Joining pieces free of the separator and splitting again gives the pieces
      back. */
  lemma {:induction false} SplitJoin(parts: seq<string>, c: char)
    requires |parts| >= 1
    requires forall i :: 0 <= i < |parts| ==> c !in parts[i]
    ensures Split(Join(parts, [c]), [c]) == parts
    decreases |parts|
  {
    if |parts| == 1 {
      SplitWhole(parts[0], c);
    } else {
      var tail := parts[1..];
      SplitJoin(tail, c);
      SplitAt(parts[0], Join(tail, [c]), c);
      assert parts == [parts[0]] + tail;
    }
  }

  lemma SplitHasSecond(s: string, sep: string)
    requires |sep| > 0
    ensures |Split(s, sep)| >= 2 <==> Contains(s, sep)
  {
  }

  /** The split of a string on a separator it contains starts with the text
      before the first separator, followed by the text up to the next one. */
  lemma SplitFirstTwo(s: string, sep: string)
    requires |sep| > 0 && Contains(s, sep)
    ensures var i := IndexOf(s, sep).value;
            var rest := s[i + |sep|..];
            Split(s, sep)[0] == s[..i] &&
            Split(s, sep)[1] == Split(rest, sep)[0] &&
            (IndexOf(rest, sep).None? ==> Split(s, sep)[1] == rest) &&
            (IndexOf(rest, sep).Some? ==> Split(s, sep)[1] == rest[..IndexOf(rest, sep).value])
  {
  }

  // ---- character classes and per-character maps -------------------------------

  /** Whose notion of white space a strip uses. */
  datatype Runtime = Python | EcmaScript

  /** The characters a strip removes. Python's `str.strip()` removes those for
      which `str.isspace()` holds; JavaScript's `String.prototype.trim()`
      removes the WhiteSpace and LineTerminator characters of ECMAScript
      (section 12.2 and 12.3 of ECMA-262). Both hold the tab to carriage
      return, the space separators and the line and paragraph separators;
      only Python adds U+001C to U+001F and U+0085, only JavaScript U+FEFF. */
  predicate IsSpace(c: char, rt: Runtime)
  {
    var n := c as int;
    || (9 <= n <= 13) || n == 0x20 || n == 0xA0 || n == 0x1680 || (0x2000 <= n <= 0x200A)
    || n == 0x2028 || n == 0x2029 || n == 0x202F || n == 0x205F || n == 0x3000
    || (rt == Python && ((0x1C <= n <= 0x1F) || n == 0x85))
    || (rt == EcmaScript && n == 0xFEFF)
  }

  function TrimStart(s: string, rt: Runtime): (r: string)
    ensures |r| <= |s| && r == s[|s| - |r|..]
    ensures |r| > 0 ==> !IsSpace(r[0], rt)
    ensures forall i :: 0 <= i < |s| - |r| ==> IsSpace(s[i], rt)
  {
    if |s| > 0 && IsSpace(s[0], rt) then TrimStart(s[1..], rt) else s
  }

  function TrimEnd(s: string, rt: Runtime): (r: string)
    ensures |r| <= |s| && r == s[..|r|]
    ensures |r| > 0 ==> !IsSpace(r[|r| - 1], rt)
    ensures forall i :: |r| <= i < |s| ==> IsSpace(s[i], rt)
  {
    if |s| > 0 && IsSpace(s[|s| - 1], rt) then TrimEnd(s[..|s| - 1], rt) else s
  }

  /** Python's `s.strip()` or JavaScript's `s.trim()`. */
  function Strip(s: string, rt: Runtime): (r: string)
    ensures |r| <= |s|
    ensures |r| > 0 ==> !IsSpace(r[0], rt) && !IsSpace(r[|r| - 1], rt)
  {
    TrimEnd(TrimStart(s, rt), rt)
  }

  /** A string strips to nothing exactly when every character is white space. */
  lemma StripEmpty(s: string, rt: Runtime)
    ensures Strip(s, rt) == "" <==> forall i :: 0 <= i < |s| ==> IsSpace(s[i], rt)
  {
    var t := TrimStart(s, rt);
    if forall i :: 0 <= i < |s| ==> IsSpace(s[i], rt) {
      assert |t| == 0;
    }
  }

  /** A leading white-space character is stripped with the rest of the run:
      the strip of `c + s` is the strip of `s`. */
  lemma StripLeading(c: char, s: string, rt: Runtime)
    requires IsSpace(c, rt)
    ensures Strip([c] + s, rt) == Strip(s, rt)
  {
    assert ([c] + s)[1..] == s;
  }

  /** Where the two runtimes part: a byte order mark is white space to
      JavaScript only, U+001C and U+0085 to Python only, and a no-break space
      and a line separator to both. */
  lemma SpaceRuntimesDiffer()
    ensures IsSpace(0xFEFF as char, EcmaScript) && !IsSpace(0xFEFF as char, Python)
    ensures IsSpace(0x1C as char, Python) && !IsSpace(0x1C as char, EcmaScript)
    ensures IsSpace(0x85 as char, Python) && !IsSpace(0x85 as char, EcmaScript)
    ensures IsSpace(0xA0 as char, Python) && IsSpace(0xA0 as char, EcmaScript)
    ensures IsSpace(0x2028 as char, Python) && IsSpace(0x2028 as char, EcmaScript)
  {
  }

  /** Python's `s.replace(a, b)` for single characters `a` and `b`. */
  function ReplaceChar(s: string, a: char, b: char): (r: string)
    ensures |r| == |s|
    ensures forall i :: 0 <= i < |s| ==> r[i] == if s[i] == a then b else s[i]
  {
    seq(|s|, i requires 0 <= i < |s| => if s[i] == a then b else s[i])
  }

  /** Whether `c` is a capital that `str.lower()` maps one character up by
      32: the ASCII letters A-Z and the Latin-1 capitals U+00C0 to U+00DE
      other than the multiplication sign U+00D7. */
  predicate LatinCapital(c: char)
  {
    ('A' <= c <= 'Z') || (0xC0 <= c as int <= 0xDE && c as int != 0xD7)
  }

  /** Lower-case of one character: the capitals of ASCII and Latin-1 are
      mapped to their small letters, every other character is kept. */
  function LowerChar(c: char): (r: char)
    ensures LatinCapital(c) ==> r as int == c as int + 32
    ensures !LatinCapital(c) ==> r == c
    ensures !LatinCapital(r)
  {
    if LatinCapital(c) then (c as int + 32) as char else c
  }

  /** Python's `s.lower()` over the capitals of ASCII and Latin-1. */
  function Lower(s: string): (r: string)
    ensures |r| == |s|
    ensures forall i :: 0 <= i < |s| ==> r[i] == LowerChar(s[i])
    ensures forall i :: 0 <= i < |r| ==> !LatinCapital(r[i])
  {
    seq(|s|, i requires 0 <= i < |s| => LowerChar(s[i]))
  }

  /** A Spanish name lower-cases with its accented capital: `"MARÍA"` becomes
      `"maría"`, as Python's `lower()` gives it. */
  lemma LowerAccented()
    ensures Lower("MARÍA") == "maría"
  {
  }
}

/** Values, Python dict reads and the few Python string built-ins the bot relies on
    (str.startswith, `in`, str.replace, str.split, str.lstrip, str.isdigit, int(), str()). */
module Common {

  datatype Option<+T> = None | Some(value: T) {
    function GetOr(default: T): T {
      match this
      case Some(v) => v
      case None => default
    }
  }

  datatype Result<+R, +E> = Ok(value: R) | Err(error: E)

  /** What a Python dict holds under one key: nothing, None, or a value. */
  datatype Slot<+T> = Missing | Null | Val(value: T) {
    /** `d.get(key)`: a missing key and None both read as None. */
    function Get(): Option<T> {
      if Val? then Some(value) else None
    }
    /** `d.get(key, default)`: the default only replaces a missing key, not None. */
    function GetWithDefault(default: Option<T>): Option<T> {
      match this
      case Missing => default
      case Null => None
      case Val(v) => Some(v)
    }
  }

  /** Some member of a non-empty set, as iterating a Python dict or set yields one. */
  method PickFrom<T>(s: set<T>) returns (x: T)
    requires s != {}
    ensures x in s
  {
    x :| x in s;
  }

  // ---------------------------------------------------------------------------------------------
  // Substrings

  predicate StartsWith(s: string, p: string) {
    |p| <= |s| && s[..|p|] == p
  }

  /** Python's `p in s`. */
  predicate Contains(s: string, p: string)
    decreases |s|
  {
    StartsWith(s, p) || (s != [] && Contains(s[1..], p))
  }

  /** Python truthiness of an optional string: present and non-empty. */
  predicate Truthy(v: Option<string>) {
    v.Some? && v.value != ""
  }

  /** An occurrence is no longer than the text. */
  lemma {:induction false} ContainsLength(s: string, p: string)
    requires Contains(s, p)
    ensures |p| <= |s|
    decreases |s|
  {
    if !StartsWith(s, p) {
      ContainsLength(s[1..], p);
    }
  }

  /** The first character of an occurrence occurs in the text. */
  lemma {:induction false} ContainsHead(s: string, p: string)
    requires p != [] && Contains(s, p)
    ensures p[0] in s
    decreases |s|
  {
    if StartsWith(s, p) {
      assert s[0] == s[..|p|][0];
    } else {
      ContainsHead(s[1..], p);
      assert s == [s[0]] + s[1..];
    }
  }

  /** Python's `s.replace(pat, rep)`: one left-to-right pass replacing every non-overlapping
      occurrence of a non-empty pattern. */
  function ReplaceAll(s: string, pat: string, rep: string): string
    requires pat != []
    decreases |s|
  {
    if StartsWith(s, pat) then rep + ReplaceAll(s[|pat|..], pat, rep)
    else if s == [] then []
    else [s[0]] + ReplaceAll(s[1..], pat, rep)
  }

  /** Replacing a pattern that does not occur changes nothing. */
  lemma {:induction false} ReplaceAllAbsent(s: string, pat: string, rep: string)
    requires pat != [] && !Contains(s, pat)
    ensures ReplaceAll(s, pat, rep) == s
    decreases |s|
  {
    if s != [] {
      ReplaceAllAbsent(s[1..], pat, rep);
    }
  }

  /** A leading occurrence is replaced and the scan continues behind it. */
  lemma ReplaceAllLeading(pat: string, rest: string, rep: string)
    requires pat != []
    ensures ReplaceAll(pat + rest, pat, rep) == rep + ReplaceAll(rest, pat, rep)
  {
    assert (pat + rest)[..|pat|] == pat;
    assert (pat + rest)[|pat|..] == rest;
  }

  /** A leading character that does not start an occurrence is kept. */
  lemma ReplaceAllKeeps(c: char, rest: string, pat: string, rep: string)
    requires pat != [] && !StartsWith([c] + rest, pat)
    ensures ReplaceAll([c] + rest, pat, rep) == [c] + ReplaceAll(rest, pat, rep)
  {
    assert ([c] + rest)[1..] == rest;
  }

  /** Python's `str.lower()` on ASCII letters. */
  function LowerChar(c: char): char {
    if 'A' <= c <= 'Z' then (c as int + 32) as char else c
  }

  function Lower(s: string): (r: string)
    ensures |r| == |s|
    decreases |s|
  {
    if s == [] then [] else [LowerChar(s[0])] + Lower(s[1..])
  }

  /** Lower-casing is character by character: `t` is the lower-case form of `s` when each of its
      characters is the lower-case form of the one at the same place in `s`. */
  lemma {:induction false} LowerPointwise(s: string, t: string)
    requires |s| == |t| && forall i :: 0 <= i < |s| ==> LowerChar(s[i]) == t[i]
    ensures Lower(s) == t
    decreases |s|
  {
    if s != [] {
      LowerPointwise(s[1..], t[1..]);
      assert t == [t[0]] + t[1..];
    }
  }

  /** Lower-casing is idempotent. */
  lemma {:induction false} LowerTwice(s: string)
    ensures Lower(Lower(s)) == Lower(s)
    decreases |s|
  {
    if s != [] {
      LowerTwice(s[1..]);
      assert Lower(s)[1..] == Lower(s[1..]);
    }
  }

  /** Lower-casing distributes over a prefix. */
  lemma {:induction false} LowerPrefix(s: string, n: nat)
    requires n <= |s|
    ensures Lower(s)[..n] == Lower(s[..n])
    decreases n
  {
    if n > 0 {
      assert s[..n][1..] == s[1..][..n - 1];
      LowerPrefix(s[1..], n - 1);
    }
  }

  /** An occurrence survives lower-casing both texts. */
  lemma {:induction false} ContainsLower(s: string, p: string)
    requires Contains(s, p)
    ensures Contains(Lower(s), Lower(p))
    decreases |s|
  {
    if StartsWith(s, p) {
      LowerPrefix(s, |p|);
    } else {
      ContainsLower(s[1..], p);
      assert Lower(s)[1..] == Lower(s[1..]);
    }
  }

  /** Conversely, an occurrence in the lower-cased text is the lower-cased form of an occurrence
      in the text itself, in whatever letter case it is written there. */
  lemma {:induction false} ContainsLowerFrom(s: string, q: string)
    requires Contains(Lower(s), q)
    ensures exists p :: Contains(s, p) && Lower(p) == q
    decreases |s|
  {
    if StartsWith(Lower(s), q) {
      LowerPrefix(s, |q|);
      assert StartsWith(s, s[..|q|]);
      assert Contains(s, s[..|q|]) && Lower(s[..|q|]) == q;
    } else {
      assert Lower(s)[1..] == Lower(s[1..]);
      ContainsLowerFrom(s[1..], q);
      var p :| Contains(s[1..], p) && Lower(p) == q;
      assert Contains(s, p);
    }
  }

  /** `s` contains `phrase` written in some letter case. */
  ghost predicate MentionsAnyCase(s: string, phrase: string) {
    exists p :: Contains(s, p) && Lower(p) == phrase
  }

  /** Searching the lower-cased text for a phrase finds exactly its mentions in any letter case. */
  lemma LoweredSearch(s: string, phrase: string)
    ensures Contains(Lower(s), phrase) <==> MentionsAnyCase(s, phrase)
  {
    if Contains(Lower(s), phrase) {
      ContainsLowerFrom(s, phrase);
    }
    forall p | Contains(s, p)
      ensures Contains(Lower(s), Lower(p))
    {
      ContainsLower(s, p);
    }
  }

  // ---------------------------------------------------------------------------------------------
  // Splitting

  function Count(s: string, c: char): nat
    decreases |s|
  {
    if s == [] then 0 else (if s[0] == c then 1 else 0) + Count(s[1..], c)
  }

  /** Python's `s.split(sep)` for a one-character separator: never empty, one part more than
      separators, and no part holds the separator. */
  function Split(s: string, sep: char): (parts: seq<string>)
    ensures |parts| == Count(s, sep) + 1
    ensures forall i :: 0 <= i < |parts| ==> sep !in parts[i]
    decreases |s|
  {
    if s == [] then [[]]
    else
      var rest := Split(s[1..], sep);
      if s[0] == sep then [[]] + rest
      else [[s[0]] + rest[0]] + rest[1..]
  }

  /** Python's `sep.join(parts)`. */
  function Join(parts: seq<string>, sep: char): string
    requires parts != []
    decreases |parts|
  {
    if |parts| == 1 then parts[0] else parts[0] + [sep] + Join(parts[1..], sep)
  }

  /** An empty leading part contributes just the separator. */
  lemma JoinEmptyFront(rest: seq<string>, sep: char)
    requires rest != []
    ensures Join([[]] + rest, sep) == [sep] + Join(rest, sep)
  {
    var parts := [[]] + rest;
    assert parts[0] == [] && parts[1..] == rest;
  }

  /** A character glued onto the first part comes first in the join. */
  lemma JoinPushFront(c: char, rest: seq<string>, sep: char)
    requires rest != []
    ensures Join([[c] + rest[0]] + rest[1..], sep) == [c] + Join(rest, sep)
  {
    var parts := [[c] + rest[0]] + rest[1..];
    assert parts[0] == [c] + rest[0] && parts[1..] == rest[1..];
    if |rest| > 1 {
      assert Join(rest, sep) == rest[0] + [sep] + Join(rest[1..], sep);
    }
  }

  /** Joining the parts of a split gives back the text. */
  lemma {:induction false} JoinSplit(s: string, sep: char)
    ensures Join(Split(s, sep), sep) == s
    decreases |s|
  {
    if s != [] {
      var rest := Split(s[1..], sep);
      JoinSplit(s[1..], sep);
      assert s == [s[0]] + s[1..];
      if s[0] == sep {
        assert Split(s, sep) == [[]] + rest;
        JoinEmptyFront(rest, sep);
      } else {
        assert Split(s, sep) == [[s[0]] + rest[0]] + rest[1..];
        JoinPushFront(s[0], rest, sep);
      }
    }
  }

  /** A text without the separator has no separator to count. */
  lemma {:induction false} CountAbsent(s: string, c: char)
    requires c !in s
    ensures Count(s, c) == 0
    decreases |s|
  {
    if s != [] {
      assert c !in s[1..] by {
        forall i | 0 <= i < |s[1..]| ensures s[1..][i] != c { assert s[1..][i] == s[i + 1]; }
      }
      CountAbsent(s[1..], c);
    }
  }

  /** A text without the separator splits into itself alone. */
  lemma SplitNoSeparator(s: string, sep: char)
    requires sep !in s
    ensures Split(s, sep) == [s]
  {
    CountAbsent(s, sep);
    JoinSplit(s, sep);
  }

  /** A separator-free head becomes the first part. */
  lemma {:induction false} SplitAround(a: string, b: string, sep: char)
    requires sep !in a
    ensures Split(a + [sep] + b, sep) == [a] + Split(b, sep)
    decreases |a|
  {
    var s := a + [sep] + b;
    if a == [] {
      assert s == [sep] + b;
      assert s[1..] == b;
    } else {
      assert s[0] == a[0];
      assert s[1..] == a[1..] + [sep] + b;
      SplitAround(a[1..], b, sep);
      assert [a[0]] + a[1..] == a;
    }
  }

  // ---------------------------------------------------------------------------------------------
  // Digits, whitespace and Python's int() / str()

  predicate IsDigit(c: char) {
    '0' <= c <= '9'
  }

  /** Python's `s.isdigit()` over ASCII digits: non-empty and digits only. */
  predicate IsDigitString(s: string) {
    s != [] && forall i :: 0 <= i < |s| ==> IsDigit(s[i])
  }

  /** Python's `s.lstrip(c)`. */
  function LStrip(s: string, c: char): (r: string)
    ensures r == [] || r[0] != c
    ensures |r| <= |s| && r == s[|s| - |r|..]
    decreases |s|
  {
    if s != [] && s[0] == c then LStrip(s[1..], c) else s
  }

  predicate IsSpace(c: char) {
    c == ' ' || c == '\t' || c == '\n' || c == '\r' || c as int == 11 || c as int == 12
  }

  function StripLeft(s: string): string
    decreases |s|
  {
    if s != [] && IsSpace(s[0]) then StripLeft(s[1..]) else s
  }

  function StripRight(s: string): string
    decreases |s|
  {
    if s != [] && IsSpace(s[|s| - 1]) then StripRight(s[..|s| - 1]) else s
  }

  /** A base-10 literal as int() accepts it: digits, single underscores only between digits. */
  predicate IsDecimalLiteral(d: string) {
    d != [] && IsDigit(d[0]) && IsDigit(d[|d| - 1]) &&
    forall i :: 0 <= i < |d| ==> IsDigit(d[i]) || (d[i] == '_' && i + 1 < |d| && IsDigit(d[i + 1]))
  }

  function DigitValue(c: char): nat {
    if IsDigit(c) then c as int - '0' as int else 0
  }

  /** The value of a run of digits, underscores skipped. */
  function DigitsValue(d: string): nat
    decreases |d|
  {
    if d == [] then 0
    else if d[|d| - 1] == '_' then DigitsValue(d[..|d| - 1])
    else DigitsValue(d[..|d| - 1]) * 10 + DigitValue(d[|d| - 1])
  }

  /** Python's `int(s)` on a string (base 10); None where int() raises ValueError. */
  function PythonInt(s: string): Option<int> {
    var t := StripRight(StripLeft(s));
    if t != [] && (t[0] == '-' || t[0] == '+') then
      if IsDecimalLiteral(t[1..]) then
        Some(if t[0] == '-' then 0 - DigitsValue(t[1..]) else DigitsValue(t[1..]))
      else None
    else if IsDecimalLiteral(t) then Some(DigitsValue(t))
    else None
  }

  function DigitChar(n: nat): char
    requires n < 10
  {
    ('0' as int + n) as char
  }

  function NatToString(n: nat): string
    decreases n
  {
    if n < 10 then [DigitChar(n)] else NatToString(n / 10) + [DigitChar(n % 10)]
  }

  /** Python's `str(n)` for an int. */
  function IntToString(n: int): string {
    if n < 0 then "-" + NatToString(-n) else NatToString(n)
  }

  /** str() of a natural number is a digit string whose value is the number. */
  lemma {:induction false} NatToStringDigits(n: nat)
    ensures IsDigitString(NatToString(n)) && DigitsValue(NatToString(n)) == n
    decreases n
  {
    var s := NatToString(n);
    if n < 10 {
      assert s[..|s| - 1] == [];
    } else {
      NatToStringDigits(n / 10);
      var h := NatToString(n / 10);
      assert s == h + [DigitChar(n % 10)];
      assert s[..|s| - 1] == h;
      assert forall i :: 0 <= i < |s| ==> IsDigit(s[i]) by {
        forall i | 0 <= i < |s| ensures IsDigit(s[i]) {
          if i < |h| { assert s[i] == h[i]; }
        }
      }
    }
  }

  /** A digit string has no whitespace to strip and is a decimal literal. */
  lemma DigitStringIsLiteral(s: string)
    requires IsDigitString(s)
    ensures StripLeft(s) == s && StripRight(s) == s && IsDecimalLiteral(s)
  {
  }

  /** int(str(n)) == n: the parse is the inverse of Python's rendering of an int. */
  lemma IntRoundTrip(n: int)
    ensures PythonInt(IntToString(n)) == Some(n)
  {
    if n < 0 {
      var d := NatToString(-n);
      NatToStringDigits(-n);
      var s := "-" + d;
      assert s[0] == '-' && s[1..] == d;
      assert StripLeft(s) == s;
      assert s[..|s| - 1] == "-" + d[..|d| - 1];
      assert StripRight(s) == s;
      DigitStringIsLiteral(d);
    } else {
      NatToStringDigits(n);
      DigitStringIsLiteral(NatToString(n));
    }
  }

  /** str() of an int holds no underscore. */
  lemma IntToStringNoUnderscore(n: int)
    ensures '_' !in IntToString(n)
  {
    if n < 0 {
      var d := NatToString(-n);
      NatToStringDigits(-n);
      assert IntToString(n) == "-" + d;
    } else {
      NatToStringDigits(n);
    }
  }
}

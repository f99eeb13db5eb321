// Shared vocabulary of the model: optional values, error results, and the
// handful of Python string operations the ETL relies on (truthiness,
// substring tests, `str.replace`, `str(int)`, `int(str)`, `str.split`).

module Common {

  datatype Option<T> = None | Some(value: T)
  {
    function GetOr(default: T): T
    {
      if Some? then value else default
    }
  }

  /** A Python exception that aborts the current pass (it is logged and re-raised). */
  datatype Error =
    | ValueError(what: string)   // int() of a string that is not a number
    | IndexError(what: string)   // subscript of an empty string or list
    | KeyError(what: string)     // dictionary or table lookup of a missing key
    | TypeError(what: string)    // subscript of None

  datatype Result<T> = Success(value: T) | Failure(error: Error)

  /** A dictionary lookup that falls back to a default for a missing key (`try: d[k] except KeyError`). */
  function Lookup<K, V>(m: map<K, V>, k: K, default: V): V
  {
    if k in m then m[k] else default
  }

  /** Python's slice `s[i:j]` for non-negative bounds: bounds past the end are clamped. */
  function Slice(s: string, i: nat, j: nat): (r: string)
    ensures |r| == (if j <= |s| then j else |s|) - (if i <= j && i <= |s| then i else if j <= |s| then j else |s|)
    ensures i <= j <= |s| ==> r == s[i..j]
  {
    var e := if j <= |s| then j else |s|;
    var b := if i <= e then i else e;
    s[b..e]
  }

  /** Python's `s[1:]`: everything but the first character, "" for the empty string. */
  function DropFirst(s: string): (r: string)
    ensures |r| == if s == [] then 0 else |s| - 1
    ensures forall i :: 0 <= i < |r| ==> r[i] == s[i + 1]
  {
    if s == [] then [] else s[1..]
  }

  predicate AllDigits(s: string)
  {
    forall i :: 0 <= i < |s| ==> IsDigit(s[i])
  }

  /** Python truthiness of a nullable string column: None and "" are falsy. */
  predicate Truthy(s: Option<string>)
  {
    s.Some? && s.value != ""
  }

  /** Python truthiness of a nullable integer column: None and 0 are falsy. */
  predicate TruthyInt(v: Option<int>)
  {
    v.Some? && v.value != 0
  }

  predicate StartsWith(s: string, prefix: string)
  {
    |prefix| <= |s| && s[..|prefix|] == prefix
  }

  predicate EndsWith(s: string, suffix: string)
  {
    |suffix| <= |s| && s[|s| - |suffix|..] == suffix
  }

  /** Python's `sub in s` on strings. */
  predicate Contains(s: string, sub: string)
  {
    exists i | 0 <= i <= |s| - |sub| :: OccursAt(s, sub, i)
  }

  predicate OccursAt(s: string, sub: string, i: int)
  {
    0 <= i <= |s| - |sub| && s[i..i + |sub|] == sub
  }

  /** Python's `s.replace(pat, rep)`: every non-overlapping occurrence, scanning left to right. */
  function ReplaceAll(s: string, pat: string, rep: string): string
    requires pat != []
    decreases |s|
  {
    if |s| < |pat| then s
    else if s[..|pat|] == pat then rep + ReplaceAll(s[|pat|..], pat, rep)
    else [s[0]] + ReplaceAll(s[1..], pat, rep)
  }

  /** `re.sub("[...]", "", s)` and `s.replace(c, '')` for single characters. */
  function RemoveChars(s: string, drop: set<char>): (r: string)
    ensures |r| <= |s|
  {
    if s == [] then []
    else (if s[0] in drop then [] else [s[0]]) + RemoveChars(s[1..], drop)
  }

  /** The result holds exactly the characters of `s` outside the class. */
  lemma {:induction false} RemoveCharsMembers(s: string, drop: set<char>)
    ensures forall c :: c in RemoveChars(s, drop) <==> c in s && c !in drop
  {
    if s != [] {
      RemoveCharsMembers(s[1..], drop);
      assert s == [s[0]] + s[1..];
    }
  }

  /** Removing characters from a concatenation removes them from each part, keeping the order of what stays. */
  lemma {:induction false} RemoveCharsAppend(a: string, b: string, drop: set<char>)
    ensures RemoveChars(a + b, drop) == RemoveChars(a, drop) + RemoveChars(b, drop)
  {
    if a == [] {
      assert a + b == b;
    } else {
      var keep := if a[0] in drop then [] else [a[0]];
      calc {
        RemoveChars(a + b, drop);
      == { assert (a + b)[0] == a[0] && (a + b)[1..] == a[1..] + b; }
        keep + RemoveChars(a[1..] + b, drop);
      == { RemoveCharsAppend(a[1..], b, drop); }
        keep + (RemoveChars(a[1..], drop) + RemoveChars(b, drop));
      ==
        (keep + RemoveChars(a[1..], drop)) + RemoveChars(b, drop);
      }
    }
  }

  /** One character is dropped iff it is in the class, and kept once otherwise. */
  lemma RemoveCharsOne(c: char, drop: set<char>)
    ensures RemoveChars([c], drop) == if c in drop then [] else [c]
  {
    assert [c][1..] == [];
  }

  /** A string with none of the class's characters comes back unchanged. */
  lemma {:induction false} RemoveCharsClean(s: string, drop: set<char>)
    requires forall i :: 0 <= i < |s| ==> s[i] !in drop
    ensures RemoveChars(s, drop) == s
  {
    if s != [] {
      RemoveCharsClean(s[1..], drop);
    }
  }

  /** A removed character between two clean parts is cut out in place. */
  lemma RemoveCharsBetween(head: string, c: char, tail: string, drop: set<char>)
    requires c in drop
    requires forall i :: 0 <= i < |head| ==> head[i] !in drop
    requires forall i :: 0 <= i < |tail| ==> tail[i] !in drop
    ensures RemoveChars(head + [c] + tail, drop) == head + tail
  {
    calc {
      RemoveChars(head + [c] + tail, drop);
    == { RemoveCharsAppend(head + [c], tail, drop); }
      RemoveChars(head + [c], drop) + RemoveChars(tail, drop);
    == { RemoveCharsAppend(head, [c], drop); }
      RemoveChars(head, drop) + RemoveChars([c], drop) + RemoveChars(tail, drop);
    == { RemoveCharsOne(c, drop); RemoveCharsClean(head, drop); RemoveCharsClean(tail, drop); }
      head + [] + tail;
    == { assert head + [] == head; }
      head + tail;
    }
  }

  /** Removing twice removes no more than once. */
  lemma RemoveCharsIdempotent(s: string, drop: set<char>)
    ensures RemoveChars(RemoveChars(s, drop), drop) == RemoveChars(s, drop)
  {
    var r := RemoveChars(s, drop);
    RemoveCharsMembers(s, drop);
    forall i | 0 <= i < |r|
      ensures r[i] !in drop
    {
      assert r[i] in r;
    }
    RemoveCharsClean(r, drop);
  }

  /** Python's `s.split(sep)` for a one-character separator. */
  function Split(s: string, sep: char): (parts: seq<string>)
    ensures |parts| >= 1
    ensures forall i :: 0 <= i < |parts| ==> sep !in parts[i]
    decreases |s|
  {
    if s == [] then [""]
    else
      var rest := Split(s[1..], sep);
      if s[0] == sep then [""] + rest
      else [[s[0]] + rest[0]] + rest[1..]
  }

  /** A string without the separator splits into itself alone. */
  lemma {:induction false} SplitNoSeparator(s: string, sep: char)
    requires sep !in s
    ensures Split(s, sep) == [s]
    decreases |s|
  {
    if s != [] {
      SplitNoSeparator(s[1..], sep);
      assert [s[0]] + s[1..] == s;
    }
  }

  /** The text before the first separator is the first part; the rest splits on its own. */
  lemma {:induction false} SplitFirst(a: string, b: string, sep: char)
    requires sep !in a
    ensures Split(a + [sep] + b, sep) == [a] + Split(b, sep)
    decreases |a|
  {
    if a == [] {
      assert a + [sep] + b == [sep] + b;
      assert ([sep] + b)[1..] == b;
    } else {
      SplitFirst(a[1..], b, sep);
      assert (a + [sep] + b)[1..] == a[1..] + [sep] + b;
      assert [a[0]] + a[1..] == a;
    }
  }

  /** Python's `str.lower()` on ASCII letters. */
  function ToLower(s: string): (r: string)
    ensures |r| == |s|
    ensures forall i :: 0 <= i < |s| ==> r[i] == LowerChar(s[i])
  {
    if s == [] then [] else [LowerChar(s[0])] + ToLower(s[1..])
  }

  function LowerChar(c: char): char
  {
    if 'A' <= c <= 'Z' then (c as int - 'A' as int + 'a' as int) as char else c
  }

  predicate IsDigit(c: char)
  {
    '0' <= c <= '9'
  }

  function DigitChar(d: nat): (c: char)
    requires d < 10
    ensures IsDigit(c) && c as int - '0' as int == d
  {
    ('0' as int + d) as char
  }

  /** Python's `str(n)` for a non-negative integer. */
  function NatToString(n: nat): (s: string)
    ensures s != [] && forall i :: 0 <= i < |s| ==> IsDigit(s[i])
  {
    if n < 10 then [DigitChar(n)] else NatToString(n / 10) + [DigitChar(n % 10)]
  }

  /** Python's `str(n)`. */
  function IntToString(n: int): string
  {
    if n < 0 then "-" + NatToString(-n) else NatToString(n)
  }

  function DigitsValue(s: string): nat
    requires forall i :: 0 <= i < |s| ==> IsDigit(s[i])
  {
    if s == [] then 0
    else
      assert IsDigit(s[|s| - 1]);
      10 * DigitsValue(s[..|s| - 1]) + (s[|s| - 1] as int - '0' as int)
  }

  /**
   * Python's `int(s)` on a plain decimal string: `ValueError` for the empty
   * string and for any non-digit character.
   */
  function ParseInt(s: string): (r: Result<nat>)
    ensures r.Success? <==> s != [] && forall i :: 0 <= i < |s| ==> IsDigit(s[i])
  {
    if s != [] && forall i :: 0 <= i < |s| ==> IsDigit(s[i])
    then Success(DigitsValue(s))
    else Failure(ValueError(s))
  }

  /** `int(str(n)) == n`: the decimal rendering of a number parses back to it. */
  lemma {:induction false} ParseIntOfNatToString(n: nat)
    ensures ParseInt(NatToString(n)) == Success(n)
  {
    DigitsOfNatToString(n);
  }

  lemma {:induction false} DigitsOfNatToString(n: nat)
    ensures DigitsValue(NatToString(n)) == n
  {
    var s := NatToString(n);
    if n >= 10 {
      DigitsOfNatToString(n / 10);
      assert s[..|s| - 1] == NatToString(n / 10);
    }
  }

  /** Two strings that end in different suffixes of the same length differ. */
  lemma DifferentSuffixes(a: string, b: string, x: string, y: string)
    requires |x| == |y| && x != y
    ensures a + x != b + y
  {
    if |a| == |b| {
      assert (a + x)[|a|..] == x;
      assert (b + y)[|b|..] == y;
    } else {
      assert |a + x| != |b + y|;
    }
  }

  lemma ReplaceAllAbsent(s: string, pat: string, rep: string)
    requires pat != [] && !Contains(s, pat)
    ensures ReplaceAll(s, pat, rep) == s
    decreases |s|
  {
    if |s| >= |pat| {
      assert !OccursAt(s, pat, 0);
      forall i | 0 <= i <= |s[1..]| - |pat|
        ensures !OccursAt(s[1..], pat, i)
      {
        assert s[1..][i..i + |pat|] == s[i + 1..i + 1 + |pat|];
        assert !OccursAt(s, pat, i + 1);
      }
      ReplaceAllAbsent(s[1..], pat, rep);
    }
  }
}

/**
 * The part of Python's built-in value semantics that the converters rely on:
 * missing values, truthiness, f-string rendering of None, and the str methods
 * replace, lower, split, isdigit and the `in` substring test (ASCII only).
 */
module PyBuiltins {

  datatype Option<+T> = None | Some(value: T)

  /** The exceptions a converter can raise on one record. */
  datatype PyError = StopIteration | IndexError

  /** A call either returns a value or raises. */
  datatype Result<+T> = Ok(value: T) | Raised(error: PyError)

  /** Truthiness of a possibly-missing string: None and "" are falsy. */
  predicate Truthy(s: Option<string>)
  {
    s.Some? && s.value != ""
  }

  /** How an f-string renders a possibly-None string: None prints as "None". */
  function Show(s: Option<string>): string
  {
    if s.Some? then s.value else "None"
  }

  /** str.replace(old, new) for a one-character `old`. */
  function Replace(s: string, pat: char, rep: string): string
  {
    if s == [] then []
    else (if s[0] == pat then rep else [s[0]]) + Replace(s[1..], pat, rep)
  }

  /** The characters of `s.replace(pat, rep)`; with no `pat` in `s` it is `s`. */
  lemma {:induction false} ReplaceChars(s: string, pat: char, rep: string)
    ensures forall c :: c in Replace(s, pat, rep) <==> (c in s && c != pat) || (pat in s && c in rep)
    ensures pat !in s ==> Replace(s, pat, rep) == s
  {
    if s != [] {
      ReplaceChars(s[1..], pat, rep);
      assert s == [s[0]] + s[1..];
    }
  }
  /**
   * One replacement of a chain applied to the text `t`: the characters already
   * removed (`gone`) stay out, `pat` goes out too, only `_` comes in, and every
   * other character of `t` stays.
   */
  lemma ReplaceStep(prev: string, pat: char, rep: string, t: string, gone: set<char>)
    requires forall c :: c in prev ==> (c in t || c == '_') && c !in gone
    requires forall c :: c in t && c !in gone ==> c in prev
    requires forall c :: c in rep ==> c == '_'
    requires '_' !in gone && pat != '_'
    ensures forall c :: c in Replace(prev, pat, rep) ==> (c in t || c == '_') && c !in gone + {pat}
    ensures forall c :: c in t && c !in gone + {pat} ==> c in Replace(prev, pat, rep)
  {
    ReplaceChars(prev, pat, rep);
  }


  predicate IsUpper(c: char)
  {
    'A' <= c <= 'Z'
  }

  function LowerChar(c: char): (r: char)
    ensures !IsUpper(r)
    ensures !IsUpper(c) ==> r == c
  {
    if IsUpper(c) then (c as int + 32) as char else c
  }

  /** str.lower() restricted to ASCII letters. */
  function Lower(s: string): (r: string)
    ensures |r| == |s|
    ensures forall i :: 0 <= i < |s| ==> r[i] == LowerChar(s[i])
  {
    if s == [] then [] else [LowerChar(s[0])] + Lower(s[1..])
  }

  /** Lowering a string with no upper-case letter leaves it unchanged. */
  lemma {:induction false} LowerNoUpper(s: string)
    requires forall c :: c in s ==> !IsUpper(c)
    ensures Lower(s) == s
  {
    if s != [] {
      LowerNoUpper(s[1..]);
    }
  }

  /** str.lower() and str.replace(old, new) commute when neither `old` nor `new` involves a letter. */
  lemma {:induction false} LowerReplaceCommute(s: string, pat: char, rep: string)
    requires !IsUpper(pat) && forall c :: c in rep ==> !IsUpper(c)
    requires !('a' <= pat <= 'z')
    ensures Lower(Replace(s, pat, rep)) == Replace(Lower(s), pat, rep)
  {
    if s != [] {
      LowerReplaceCommute(s[1..], pat, rep);
      LowerAppend(if s[0] == pat then rep else [s[0]], Replace(s[1..], pat, rep));
      LowerNoUpper(rep);
      assert Lower(s)[1..] == Lower(s[1..]);
    }
  }

  lemma {:induction false} LowerAppend(a: string, b: string)
    ensures Lower(a + b) == Lower(a) + Lower(b)
  {
    if a != [] {
      assert (a + b)[1..] == a[1..] + b;
      LowerAppend(a[1..], b);
    }
  }

  /** Lowering cannot bring back a character that is not a lower-case letter. */
  lemma LowerKeepsAbsent(s: string, absent: string)
    requires forall c :: c in absent ==> !('a' <= c <= 'z')
    requires forall c :: c in s ==> c !in absent
    ensures forall c :: c in Lower(s) ==> c !in absent
  {
    forall c | c in Lower(s)
      ensures c !in absent
    {
      var i :| 0 <= i < |s| && Lower(s)[i] == c;
      assert s[i] in s;
    }
  }

  predicate IsDigit(c: char)
  {
    '0' <= c <= '9'
  }

  /** str.isdigit() restricted to ASCII digits: non-empty and all digits. */
  predicate IsDigitStr(s: string)
  {
    |s| > 0 && forall i :: 0 <= i < |s| ==> IsDigit(s[i])
  }

  /** A string holding a dash is not all digits. */
  lemma NotDigitsWithDash(s: string)
    requires '-' in s
    ensures !IsDigitStr(s)
  {
  }

  function DigitChar(d: nat): (c: char)
    requires d < 10
    ensures IsDigit(c) && c as int - '0' as int == d
  {
    ('0' as int + d) as char
  }

  function DigitValue(c: char): (d: nat)
    requires IsDigit(c)
    ensures d < 10 && DigitChar(d) == c
  {
    c as int - '0' as int
  }

  /** int(s) for a string of ASCII digits. */
  function DigitsValue(s: string): nat
    requires forall i :: 0 <= i < |s| ==> IsDigit(s[i])
  {
    if s == [] then 0 else DigitsValue(s[..|s| - 1]) * 10 + DigitValue(s[|s| - 1])
  }

  /** str(n) for a natural number, as an f-string renders a counter. */
  function NatToString(n: nat): (s: string)
    ensures IsDigitStr(s)
    ensures DigitsValue(s) == n
    decreases n
  {
    if n < 10 then [DigitChar(n)]
    else
      var prefix := NatToString(n / 10);
      var s := prefix + [DigitChar(n % 10)];
      assert s[..|s| - 1] == prefix;
      s
  }

  /** Different counters render differently. */
  lemma NatToStringInjective(a: nat, b: nat)
    requires NatToString(a) == NatToString(b)
    ensures a == b
  {
  }

  /** Index of the first occurrence of `c` in `s`. */
  function IndexOf(s: string, c: char): (i: nat)
    requires c in s
    ensures i < |s| && s[i] == c && c !in s[..i]
  {
    if s[0] == c then 0 else 1 + IndexOf(s[1..], c)
  }

  /** str.split(sep) for a one-character separator. */
  function Split(s: string, sep: char): (parts: seq<string>)
    ensures |parts| >= 1
    decreases |s|
  {
    if sep !in s then [s]
    else
      var i := IndexOf(s, sep);
      [s[..i]] + Split(s[i + 1..], sep)
  }

  /** sep.join(parts), the inverse of Split. */
  function Join(parts: seq<string>, sep: char): string
    requires |parts| >= 1
  {
    if |parts| == 1 then parts[0] else parts[0] + [sep] + Join(parts[1..], sep)
  }

  /** Splitting and joining again gives back the original string. */
  lemma {:induction false} SplitJoin(s: string, sep: char)
    ensures Join(Split(s, sep), sep) == s
    decreases |s|
  {
    if sep in s {
      var i := IndexOf(s, sep);
      SplitJoin(s[i + 1..], sep);
      assert s == s[..i] + [sep] + s[i + 1..];
    }
  }

  /** Regrouping `x + (p + b)` around the separator that ends `p`. */
  lemma ConcatRegroup(x: string, p: string, b: string)
    requires |p| > 0
    ensures x + (p + b) == x + p[..|p| - 1] + [p[|p| - 1]] + b
  {
    assert p == p[..|p| - 1] + [p[|p| - 1]];
  }

  /** `s.split(sep)[-1]`: the text after the last separator, all of `s` when it holds none. */
  function LastPart(s: string, sep: char): string
  {
    if s == [] || s[|s| - 1] == sep then [] else LastPart(s[..|s| - 1], sep) + [s[|s| - 1]]
  }

  /** `s.split(sep)[0]`: the text before the first separator, all of `s` when it holds none. */
  function FirstPart(s: string, sep: char): string
  {
    if s == [] || s[0] == sep then [] else [s[0]] + FirstPart(s[1..], sep)
  }

  /** A text with no separator is its own last and first part. */
  lemma {:induction false} PartsOfSeparatorFree(s: string, sep: char)
    requires sep !in s
    ensures LastPart(s, sep) == s && FirstPart(s, sep) == s
  {
    if s != [] {
      assert s[..|s| - 1] + [s[|s| - 1]] == s;
      PartsOfSeparatorFree(s[..|s| - 1], sep);
      PartsOfSeparatorFree(s[1..], sep);
    }
  }

  /** Whatever precedes a separator does not change the last part after it. */
  lemma {:induction false} LastPartAfter(a: string, sep: char, b: string)
    ensures LastPart(a + [sep] + b, sep) == LastPart(b, sep)
  {
    if b != [] {
      assert (a + [sep] + b)[..|a + [sep] + b| - 1] == a + [sep] + b[..|b| - 1];
      LastPartAfter(a, sep, b[..|b| - 1]);
    }
  }

  /** Whatever follows a separator does not change the first part before it. */
  lemma {:induction false} FirstPartBefore(a: string, sep: char, b: string)
    ensures FirstPart(a + [sep] + b, sep) == FirstPart(a, sep)
  {
    if a != [] {
      assert (a + [sep] + b)[1..] == a[1..] + [sep] + b;
      FirstPartBefore(a[1..], sep, b);
    }
  }

  /** LastPart is the last element of Split. */
  lemma {:induction false} LastPartIsLastOfSplit(s: string, sep: char)
    ensures var parts := Split(s, sep); LastPart(s, sep) == parts[|parts| - 1]
    decreases |s|
  {
    if sep !in s {
      PartsOfSeparatorFree(s, sep);
    } else {
      var i := IndexOf(s, sep);
      var a, b := s[..i], s[i + 1..];
      assert s == a + [sep] + b;
      LastPartAfter(a, sep, b);
      LastPartIsLastOfSplit(b, sep);
      var parts, rest := Split(s, sep), Split(b, sep);
      assert parts == [a] + rest;
      assert parts[|parts| - 1] == rest[|rest| - 1];
      assert LastPart(s, sep) == LastPart(b, sep);
    }
  }

  /** FirstPart is the first element of Split. */
  lemma FirstPartIsFirstOfSplit(s: string, sep: char)
    ensures FirstPart(s, sep) == Split(s, sep)[0]
  {
    if sep !in s {
      PartsOfSeparatorFree(s, sep);
    } else {
      var i := IndexOf(s, sep);
      assert s == s[..i] + [sep] + s[i + 1..];
      FirstPartBefore(s[..i], sep, s[i + 1..]);
      PartsOfSeparatorFree(s[..i], sep);
    }
  }

  /** The last part of `x + (p + b)` is `b` when `p` ends in the separator and `b` holds none. */
  lemma SplitLastAfter(x: string, p: string, sep: char, b: string)
    requires |p| > 0 && p[|p| - 1] == sep && sep !in b
    ensures LastPart(x + (p + b), sep) == b
  {
    ConcatRegroup(x, p, b);
    LastPartAfter(x + p[..|p| - 1], sep, b);
    PartsOfSeparatorFree(b, sep);
  }

  /** The first separator in `a + sep + b` is the one after `a` when `a` holds none. */
  lemma {:induction false} IndexOfAfterPrefix(a: string, sep: char, b: string)
    requires sep !in a
    ensures IndexOf(a + [sep] + b, sep) == |a|
  {
    if a != [] {
      assert (a + [sep] + b)[1..] == a[1..] + [sep] + b;
      IndexOfAfterPrefix(a[1..], sep, b);
    }
  }

  /** Splitting a string at a separator that follows a separator-free prefix. */
  lemma SplitAfterPrefix(a: string, sep: char, b: string)
    requires sep !in a
    ensures Split(a + [sep] + b, sep) == [a] + Split(b, sep)
  {
    var s := a + [sep] + b;
    IndexOfAfterPrefix(a, sep, b);
    assert s[..|a|] == a;
    assert s[|a| + 1..] == b;
  }

  /** Two texts whose prefixes differ at a common position differ. */
  lemma PrefixesDiffer(p1: string, a: string, p2: string, b: string, k: nat)
    requires k < |p1| && k < |p2| && p1[k] != p2[k]
    ensures p1 + a != p2 + b
  {
    assert (p1 + a)[k] == p1[k] && (p2 + b)[k] == p2[k];
  }

  /** Appending text after an occurrence of `c` does not move the first `c`. */
  lemma {:induction false} IndexOfAppend(a: string, c: char, t: string)
    requires c in a
    ensures IndexOf(a + t, c) == IndexOf(a, c)
  {
    if a[0] != c {
      assert (a + t)[1..] == a[1..] + t;
      IndexOfAppend(a[1..], c, t);
    }
  }

  /** The first part of `a + sep + b` is the first part of `a`. */
  lemma SplitFirst(a: string, sep: char, b: string)
    ensures Split(a + [sep] + b, sep)[0] == Split(a, sep)[0]
  {
    if sep !in a {
      SplitAfterPrefix(a, sep, b);
    } else {
      var i := IndexOf(a, sep);
      IndexOfAppend(a, sep, [sep] + b);
      assert a + [sep] + b == a + ([sep] + b);
      assert (a + ([sep] + b))[..i] == a[..i];
    }
  }

  /** Python's `t in s` for strings: `t` occurs as a contiguous substring of `s`. */
  predicate HasSubstring(s: string, t: string)
    decreases |s|
  {
    t <= s || (s != [] && HasSubstring(s[1..], t))
  }

  /** `t` occurs in `s` starting at index `i`. */
  predicate OccursAt(s: string, t: string, i: nat)
  {
    i + |t| <= |s| && s[i..i + |t|] == t
  }

  /** HasSubstring agrees with the positional definition of a substring. */
  lemma {:induction false} HasSubstringAt(s: string, t: string)
    ensures HasSubstring(s, t) <==> exists i: nat :: OccursAt(s, t, i)
    decreases |s|
  {
    if t <= s {
      assert OccursAt(s, t, 0);
    }
    if s != [] {
      HasSubstringAt(s[1..], t);
      if HasSubstring(s[1..], t) {
        var i: nat :| OccursAt(s[1..], t, i);
        assert OccursAt(s, t, i + 1);
      }
      if exists i: nat :: OccursAt(s, t, i) {
        var i: nat :| OccursAt(s, t, i);
        if i > 0 {
          assert OccursAt(s[1..], t, i - 1);
        } else {
          assert t <= s;
        }
      }
    } else if exists i: nat :: OccursAt(s, t, i) {
      var i: nat :| OccursAt(s, t, i);
      assert t <= s;
    }
  }
}

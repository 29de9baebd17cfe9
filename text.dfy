/**
  The few JavaScript string operations the core relies on, over `string` (= seq<char>):
  `includes`, `startsWith`, `split(" ")`, `slice`, `trim` and `toLowerCase`.
 */
module Text {

  /** `s.startsWith(p)`. */
  predicate StartsWith(s: string, p: string) {
    p <= s
  }

  /** `sub` occurs in `s` starting at index `i`. */
  predicate OccursAt(s: string, sub: string, i: nat) {
    i + |sub| <= |s| && s[i..i + |sub|] == sub
  }

  /** `s.includes(sub)`: `sub` occurs somewhere in `s` (the empty string occurs everywhere). */
  function Contains(s: string, sub: string): (b: bool)
    ensures b <==> exists i: nat :: OccursAt(s, sub, i)
    decreases |s|
  {
    if sub <= s then
      assert OccursAt(s, sub, 0);
      true
    else if |s| <= |sub| then
      assert forall i: nat :: !OccursAt(s, sub, i) by {
        forall i: nat ensures !OccursAt(s, sub, i) {
          if i == 0 {
          } else {
            assert i + |sub| > |s|;
          }
        }
      }
      false
    else
      var b := Contains(s[1..], sub);
      assert b ==> exists i: nat :: OccursAt(s, sub, i) by {
        if b {
          var j: nat :| OccursAt(s[1..], sub, j);
          assert s[1..][j..j + |sub|] == s[j + 1..j + 1 + |sub|];
          assert OccursAt(s, sub, j + 1);
        }
      }
      assert (exists i: nat :: OccursAt(s, sub, i)) ==> b by {
        if exists i: nat :: OccursAt(s, sub, i) {
          var i: nat :| OccursAt(s, sub, i);
          assert i != 0;
          assert s[1..][i - 1..i - 1 + |sub|] == s[i..i + |sub|];
          assert OccursAt(s[1..], sub, i - 1);
        }
      }
      b
  }

  /** `s.split(d)`: the parts between consecutive separators, in order, empty ones included; "" splits into [""]. */
  function Split(s: string, d: char): (parts: seq<string>)
    ensures |parts| >= 1
    ensures forall i :: 0 <= i < |parts| ==> d !in parts[i]
  {
    if |s| == 0 then [""]
    else if s[0] == d then [""] + Split(s[1..], d)
    else
      var rest := Split(s[1..], d);
      [[s[0]] + rest[0]] + rest[1..]
  }

  /** `parts.join(d)`. */
  function Join(parts: seq<string>, d: char): string
    requires |parts| >= 1
  {
    if |parts| == 1 then parts[0] else parts[0] + [d] + Join(parts[1..], d)
  }

  /** Splitting on `d` loses nothing: joining the parts with `d` gives the string back. */
  lemma {:induction false} JoinSplit(s: string, d: char)
    ensures Join(Split(s, d), d) == s
  {
    if |s| == 0 {
    } else if s[0] == d {
      JoinSplit(s[1..], d);
      var rest := Split(s[1..], d);
      assert Split(s, d) == [""] + rest;
      assert ([""] + rest)[1..] == rest;
      assert s == [d] + s[1..];
    } else {
      JoinSplit(s[1..], d);
      var rest := Split(s[1..], d);
      var parts := [[s[0]] + rest[0]] + rest[1..];
      assert Split(s, d) == parts;
      if |rest| == 1 {
        assert s == [s[0]] + s[1..];
      } else {
        assert parts[1..] == rest[1..];
        assert Join(rest, d) == rest[0] + [d] + Join(rest[1..], d);
        assert s == [s[0]] + s[1..];
      }
    }
  }

  /** The second part of `s.split(d)` when the string is `a + [d] + b` and neither `a` nor `b` holds `d`. */
  lemma {:induction false} SplitTwoParts(a: string, b: string, d: char)
    requires d !in a && d !in b
    ensures Split(a + [d] + b, d) == [a, b]
    decreases |a|
  {
    if |a| == 0 {
      assert a + [d] + b == [d] + b;
      assert ([d] + b)[1..] == b;
      SplitNone(b, d);
    } else {
      assert (a + [d] + b)[0] == a[0];
      assert (a + [d] + b)[1..] == a[1..] + [d] + b;
      SplitTwoParts(a[1..], b, d);
      assert [a[0]] + a[1..] == a;
    }
  }

  /** A string without `d` splits into itself alone. */
  lemma {:induction false} SplitNone(s: string, d: char)
    requires d !in s
    ensures Split(s, d) == [s]
  {
    if |s| > 0 {
      SplitNone(s[1..], d);
      assert [s[0]] + s[1..] == s;
    }
  }

  /**
    `String.prototype.slice(start, end)` for non-negative arguments: both ends are clamped to the
    length of the string, and an end before the start gives "".
   */
  function Slice(s: string, start: nat, end: nat): (r: string)
    ensures |r| == if start <= end && start <= |s| then (if end <= |s| then end else |s|) - start else 0
    ensures start <= |s| ==> r == s[start..start + |r|]
  {
    var e := if end <= |s| then end else |s|;
    if start <= e then s[start..e] else ""
  }

  /** The white space and line terminators that `String.prototype.trim` removes. */
  predicate IsTrimmed(c: char) {
    || c == '\t' || c == '\n' || c == '\U{000B}' || c == '\U{000C}' || c == '\r' || c == ' '
    || c == '\U{00A0}' || c == '\U{1680}' || ('\U{2000}' <= c <= '\U{200A}')
    || c == '\U{2028}' || c == '\U{2029}' || c == '\U{202F}' || c == '\U{205F}'
    || c == '\U{3000}' || c == '\U{FEFF}'
  }

  function TrimStart(s: string): (r: string)
    ensures |r| <= |s| && r == s[|s| - |r|..]
    ensures r == [] || !IsTrimmed(r[0])
    ensures forall i :: 0 <= i < |s| - |r| ==> IsTrimmed(s[i])
  {
    if |s| > 0 && IsTrimmed(s[0]) then TrimStart(s[1..]) else s
  }

  function TrimEnd(s: string): (r: string)
    ensures |r| <= |s| && r == s[..|r|]
    ensures r == [] || !IsTrimmed(r[|r| - 1])
    ensures forall i :: |r| <= i < |s| ==> IsTrimmed(s[i])
  {
    if |s| > 0 && IsTrimmed(s[|s| - 1]) then TrimEnd(s[..|s| - 1]) else s
  }

  /** `s.trim()`: the longest infix of `s` that neither starts nor ends with white space. */
  function Trim(s: string): string {
    TrimEnd(TrimStart(s))
  }

  /** A trimmed string is its own trimmed form, so the checks run after `.trim()` see a fixed point. */
  lemma TrimIdempotent(s: string)
    ensures Trim(Trim(s)) == Trim(s)
  {
    var t := Trim(s);
    if |t| > 0 {
      assert !IsTrimmed(t[|t| - 1]);
      var u := TrimStart(s);
      assert t == u[..|t|];
      assert t[0] == u[0];
    }
  }

  function LowerChar(c: char): char {
    if 'A' <= c <= 'Z' then (c as int + 32) as char else c
  }

  /** `s.toLowerCase()` on the ASCII letters. */
  function ToLower(s: string): (r: string)
    ensures |r| == |s|
    ensures forall i :: 0 <= i < |s| ==> r[i] == LowerChar(s[i])
  {
    if |s| == 0 then "" else [LowerChar(s[0])] + ToLower(s[1..])
  }
}

/** String helpers standing in for the JavaScript string built-ins, the
    `format` method added to strings by the stringformat package, and the
    parts of Node's `path` module that the core uses. */
module Strings {

  // ---------------------------------------------------------------------
  // Substrings and ASCII case folding (regular expressions with the `i`
  // flag and an ASCII pattern match exactly the ASCII case variants).
  // ---------------------------------------------------------------------

  predicate StartsWith(s: string, prefix: string) {
    |prefix| <= |s| && s[..|prefix|] == prefix
  }

  predicate EndsWith(s: string, suffix: string) {
    |suffix| <= |s| && s[|s| - |suffix|..] == suffix
  }

  /** Whether `sub` occurs in `s`, found by scanning `s` from the left. */
  predicate Contains(s: string, sub: string)
    decreases |s|
  {
    StartsWith(s, sub) || (s != [] && Contains(s[1..], sub))
  }

  /** `sub` occurs at position `i` of `s`. */
  predicate OccursAt(s: string, sub: string, i: int) {
    0 <= i && i + |sub| <= |s| && s[i..i + |sub|] == sub
  }

  lemma {:induction false} ContainsIffOccurs(s: string, sub: string)
    ensures Contains(s, sub) <==> exists i :: OccursAt(s, sub, i)
    decreases |s|
  {
    if s == [] {
      if Contains(s, sub) {
        assert OccursAt(s, sub, 0);
      }
    } else {
      ContainsIffOccurs(s[1..], sub);
      if exists i :: OccursAt(s, sub, i) {
        var i :| OccursAt(s, sub, i);
        if i > 0 {
          assert s[1..][i - 1..i - 1 + |sub|] == s[i..i + |sub|];
          assert OccursAt(s[1..], sub, i - 1);
        }
      }
      if Contains(s, sub) {
        if StartsWith(s, sub) {
          assert OccursAt(s, sub, 0);
        } else {
          var j :| OccursAt(s[1..], sub, j);
          assert s[1..][j..j + |sub|] == s[j + 1..j + 1 + |sub|];
          assert OccursAt(s, sub, j + 1);
        }
      }
    }
  }

  function Lower(c: char): char {
    if 'A' <= c <= 'Z' then (c as int + 32) as char else c
  }

  function LowerAll(s: string): (r: string)
    ensures |r| == |s|
    ensures forall i :: 0 <= i < |s| ==> r[i] == Lower(s[i])
  {
    if s == [] then [] else [Lower(s[0])] + LowerAll(s[1..])
  }

  // ---------------------------------------------------------------------
  // split and join
  // ---------------------------------------------------------------------

  /** `s.split(re)` where `re` matches any single character of `seps`:
      the pieces between separators, empty pieces included. */
  function Split(s: string, seps: set<char>): (r: seq<string>)
    ensures |r| >= 1
    decreases |s|
  {
    if s == [] then [""]
    else if s[0] in seps then [""] + Split(s[1..], seps)
    else
      var rest := Split(s[1..], seps);
      [[s[0]] + rest[0]] + rest[1..]
  }

  function Concat(xs: seq<string>): string {
    if xs == [] then [] else xs[0] + Concat(xs[1..])
  }

  function Join(xs: seq<string>, sep: string): string {
    if xs == [] then []
    else if |xs| == 1 then xs[0]
    else xs[0] + sep + Join(xs[1..], sep)
  }

  /** The characters of `s` that are not separators, in order. */
  function Strip(s: string, seps: set<char>): (r: string)
    ensures forall i :: 0 <= i < |r| ==> r[i] !in seps
  {
    if s == [] then []
    else if s[0] in seps then Strip(s[1..], seps)
    else [s[0]] + Strip(s[1..], seps)
  }

  function CountIn(s: string, seps: set<char>): nat {
    if s == [] then 0 else (if s[0] in seps then 1 else 0) + CountIn(s[1..], seps)
  }

  /** Splitting keeps every character except the separators, in order. */
  lemma {:induction false} SplitConcat(s: string, seps: set<char>)
    ensures Concat(Split(s, seps)) == Strip(s, seps)
    decreases |s|
  {
    if s != [] {
      SplitConcat(s[1..], seps);
      var rest := Split(s[1..], seps);
      if s[0] in seps {
        assert Split(s, seps) == [""] + rest;
        assert ([""] + rest)[1..] == rest;
      } else {
        var r := Split(s, seps);
        assert r == [[s[0]] + rest[0]] + rest[1..];
        assert r[1..] == rest[1..];
        assert Concat(rest) == rest[0] + Concat(rest[1..]);
        assert Concat(r) == ([s[0]] + rest[0]) + Concat(rest[1..]);
      }
    }
  }

  /** Splitting gives one piece more than there are separators. */
  lemma {:induction false} SplitCount(s: string, seps: set<char>)
    ensures |Split(s, seps)| == CountIn(s, seps) + 1
    decreases |s|
  {
    if s != [] {
      SplitCount(s[1..], seps);
    }
  }

  /** No piece of a split holds a separator. */
  lemma {:induction false} SplitNoSeparators(s: string, seps: set<char>)
    ensures forall k, i :: 0 <= k < |Split(s, seps)| && 0 <= i < |Split(s, seps)[k]| ==>
              Split(s, seps)[k][i] !in seps
    decreases |s|
  {
    if s != [] {
      SplitNoSeparators(s[1..], seps);
      var rest := Split(s[1..], seps);
      var r := Split(s, seps);
      forall k, i | 0 <= k < |r| && 0 <= i < |r[k]|
        ensures r[k][i] !in seps
      {
        if s[0] in seps {
          assert r == [""] + rest;
          if k > 0 {
            assert r[k] == rest[k - 1];
          }
        } else {
          assert r == [[s[0]] + rest[0]] + rest[1..];
          if k == 0 {
            if i > 0 {
              assert r[0][i] == rest[0][i - 1];
            }
          } else {
            assert r[k] == rest[k];
          }
        }
      }
    }
  }

  // ---------------------------------------------------------------------
  // '{k}'.format(args...) of the stringformat package
  // ---------------------------------------------------------------------

  predicate IsDigit(c: char) {
    '0' <= c <= '9'
  }

  /** Length of the run of decimal digits at the start of `s`. */
  function DigitRun(s: string): (n: nat)
    ensures n <= |s|
    ensures forall i :: 0 <= i < n ==> IsDigit(s[i])
    ensures n < |s| ==> !IsDigit(s[n])
  {
    if s != [] && IsDigit(s[0]) then 1 + DigitRun(s[1..]) else 0
  }

  /** Decimal value of a string of digits (most significant digit first). */
  function DigitsValue(s: string): nat {
    if s == [] then 0
    else DigitsValue(s[..|s| - 1]) * 10 + (if IsDigit(s[|s| - 1]) then s[|s| - 1] as int - '0' as int else 0)
  }

  /** The decimal digit for `d`. */
  function Digit(d: nat): (c: char)
    requires d < 10
    ensures IsDigit(c)
  {
    ('0' as int + d) as char
  }

  /** `String(n)` for a natural number: its decimal digits, most
      significant first, without leading zeros. */
  function NatText(n: nat): (r: string)
    ensures |r| >= 1 && forall i :: 0 <= i < |r| ==> IsDigit(r[i])
    ensures n >= 10 ==> r[0] != '0'
  {
    if n < 10 then [Digit(n)] else NatText(n / 10) + [Digit(n % 10)]
  }

  /** Reading back the digits of a number gives the number. */
  lemma {:induction false} NatTextValue(n: nat)
    ensures DigitsValue(NatText(n)) == n
  {
    if n >= 10 {
      NatTextValue(n / 10);
      var r := NatText(n);
      assert r[..|r| - 1] == NatText(n / 10);
    }
  }

  /** Distinct numbers have distinct texts. */
  lemma NatTextInjective(m: nat, n: nat)
    requires NatText(m) == NatText(n)
    ensures m == n
  {
    NatTextValue(m);
    NatTextValue(n);
  }

  /** `String(n)` for an integer: a minus sign before the digits of a
      negative number. */
  function IntText(n: int): (r: string)
    ensures n >= 0 ==> r == NatText(n)
    ensures n < 0 ==> r == "-" + NatText(-n)
  {
    if n >= 0 then NatText(n) else "-" + NatText(-n)
  }

  /** The index `k` named by a placeholder `{k}` at the start of `t`, with
      the placeholder's length, when `t` starts with one. */
  function PlaceholderAt(t: string): (r: (bool, nat, nat))
    ensures r.0 ==> 3 <= r.2 <= |t|
  {
    if t != [] && t[0] == '{' then
      var n := DigitRun(t[1..]);
      if 0 < n && 1 + n < |t| && t[1 + n] == '}' then (true, DigitsValue(t[1..1 + n]), n + 2)
      else (false, 0, 0)
    else (false, 0, 0)
  }

  /** Replaces every placeholder `{k}` whose index has an argument by that
      argument; any other text, including a placeholder without an
      argument, is copied unchanged. */
  function Format(t: string, args: seq<string>): string
    decreases |t|
  {
    if t == [] then []
    else
      var p := PlaceholderAt(t);
      if p.0 && p.1 < |args| then args[p.1] + Format(t[p.2..], args)
      else [t[0]] + Format(t[1..], args)
  }

  /** Text without an opening brace is left unchanged by formatting. */
  lemma {:induction false} FormatPlain(t: string, args: seq<string>)
    requires forall i :: 0 <= i < |t| ==> t[i] != '{'
    ensures Format(t, args) == t
    decreases |t|
  {
    if t != [] {
      FormatPlain(t[1..], args);
    }
  }

  /** A character other than an opening brace is copied as it is. */
  lemma FormatStep(t: string, args: seq<string>)
    requires t != [] && t[0] != '{'
    ensures Format(t, args) == [t[0]] + Format(t[1..], args)
  {
    assert !PlaceholderAt(t).0;
  }

  /** Formatting distributes over a plain prefix. */
  lemma {:induction false} FormatPlainPrefix(a: string, b: string, args: seq<string>)
    requires forall i :: 0 <= i < |a| ==> a[i] != '{'
    ensures Format(a + b, args) == a + Format(b, args)
    decreases |a|
  {
    if a == [] {
      assert a + b == b;
    } else {
      var t := a + b;
      assert t[0] == a[0];
      assert t[1..] == a[1..] + b;
      FormatStep(t, args);
      FormatPlainPrefix(a[1..], b, args);
      assert a == [a[0]] + a[1..];
    }
  }

  /** A single-digit placeholder followed by more text. */
  lemma FormatDigit(k: nat, rest: string, args: seq<string>)
    requires k < 10 && k < |args|
    ensures Format(['{', ('0' as int + k) as char, '}'] + rest, args) == args[k] + Format(rest, args)
  {
    var t := ['{', ('0' as int + k) as char, '}'] + rest;
    assert t[1..][1..] == ['}'] + rest;
    assert DigitRun(t[1..][1..]) == 0;
    assert DigitRun(t[1..]) == 1;
    assert t[1..1 + 1] == [('0' as int + k) as char];
    assert DigitsValue([('0' as int + k) as char]) == DigitsValue([]) * 10 + k;
    assert t[3..] == rest;
  }

  /** Plain text, a single-digit placeholder, then more text. */
  lemma FormatTagged(lit: string, k: nat, rest: string, args: seq<string>)
    requires forall i :: 0 <= i < |lit| ==> lit[i] != '{'
    requires k < 10 && k < |args|
    ensures Format(lit + (['{', ('0' as int + k) as char, '}'] + rest), args) == lit + args[k] + Format(rest, args)
  {
    FormatPlainPrefix(lit, ['{', ('0' as int + k) as char, '}'] + rest, args);
    FormatDigit(k, rest, args);
  }

  // ---------------------------------------------------------------------
  // Node's path module (POSIX flavour)
  // ---------------------------------------------------------------------

  /** Everything after the last `/` of a path with no trailing `/`. */
  function AfterLastSlash(s: string): (r: string)
    ensures forall i :: 0 <= i < |r| ==> r[i] != '/'
    ensures EndsWith(s, r)
    decreases |s|
  {
    if s == [] then []
    else if s[|s| - 1] == '/' then []
    else AfterLastSlash(s[..|s| - 1]) + [s[|s| - 1]]
  }

  function TrimTrailingSlashes(s: string): string
    decreases |s|
  {
    if s != [] && s[|s| - 1] == '/' then TrimTrailingSlashes(s[..|s| - 1]) else s
  }

  /** `path.basename(p)`: the last segment, trailing slashes ignored. */
  function Basename(p: string): (r: string)
    ensures forall i :: 0 <= i < |r| ==> r[i] != '/'
  {
    AfterLastSlash(TrimTrailingSlashes(p))
  }

  function LastDot(s: string): (r: int)
    ensures -1 <= r < |s|
    ensures r >= 0 ==> s[r] == '.'
    ensures forall i :: r < i < |s| ==> s[i] != '.'
    decreases |s|
  {
    if s == [] then -1
    else if s[|s| - 1] == '.' then |s| - 1
    else LastDot(s[..|s| - 1])
  }

  /** `path.extname(p)`: from the last dot of the base name, unless that
      dot starts the name. */
  function Extname(p: string): (r: string)
  {
    var b := Basename(p);
    var i := LastDot(b);
    if i <= 0 then "" else b[i..]
  }

  /** `path.resolve(folder, name)` for a plain name: the name inside the
      folder (Node's normalisation of the result is not modelled). */
  function Resolve(folder: string, name: string): string {
    folder + "/" + name
  }
}

/** The string conversions the election relies on, as JavaScript performs them:
    `Array.prototype.join` / `String.prototype.split` on commas, `Number.prototype.toString`
    for a non-negative integer and the numeric coercion `Number(s)` of a stored string. */
module Text {
  import opened Wrappers

  /** The separator of a comma-joined candidate list. */
  const Separator: char := ','

  /** `s.split(',')`: the pieces between the commas, in order. `"".split(',')` is `[""]`,
      so there is always at least one piece, and no piece holds a comma. */
  function Split(s: string): (parts: seq<string>)
    ensures |parts| >= 1
    ensures forall i :: 0 <= i < |parts| ==> Separator !in parts[i]
    decreases |s|
  {
    if s == [] then [[]]
    else
      var rest := Split(s[1..]);
      if s[0] == Separator then [[]] + rest
      else [[s[0]] + rest[0]] + rest[1..]
  }

  /** `parts.join(',')` (also what `String(array)` produces): `[]` joins to `""`. */
  function Join(parts: seq<string>): (s: string)
    ensures |parts| >= 2 ==> Separator in s
    ensures |parts| >= 1 ==> parts[0] <= s
  {
    if parts == [] then []
    else if |parts| == 1 then parts[0]
    else parts[0] + [Separator] + Join(parts[1..])
  }

  /** Joining the pieces of a split gives back the string that was split. */
  lemma {:induction false} JoinSplit(s: string)
    ensures Join(Split(s)) == s
    decreases |s|
  {
    if s != [] {
      var rest := Split(s[1..]);
      JoinSplit(s[1..]);
      if s[0] == Separator {
        assert Split(s) == [[]] + rest;
        assert ([[]] + rest)[1..] == rest;
      } else {
        assert Split(s) == [[s[0]] + rest[0]] + rest[1..];
        if |rest| == 1 {
          assert Join(rest) == rest[0];
        } else {
          assert Join(rest) == rest[0] + [Separator] + Join(rest[1..]);
          assert ([[s[0]] + rest[0]] + rest[1..])[1..] == rest[1..];
        }
      }
    }
  }

  /** Splitting a comma-free prefix `a` followed by `t` glues `a` onto the first piece of `t`. */
  lemma {:induction false} SplitPrefix(a: string, t: string)
    requires Separator !in a
    ensures Split(a + t) == [a + Split(t)[0]] + Split(t)[1..]
    decreases |a|
  {
    var parts := Split(t);
    if a != [] {
      SplitPrefix(a[1..], t);
      assert (a + t)[1..] == a[1..] + t;
      assert (a + t)[0] == a[0] != Separator;
      assert [a[0]] + (a[1..] + parts[0]) == a + parts[0];
    } else {
      assert a + t == t;
      assert a + parts[0] == parts[0];
      assert parts == [parts[0]] + parts[1..];
    }
  }

  /** Splitting a joined list of comma-free pieces gives the pieces back. The list must not
      be empty, because `Join([])` and `Join([""])` are both `""`. */
  lemma {:induction false} SplitJoin(parts: seq<string>)
    requires |parts| >= 1
    requires forall i :: 0 <= i < |parts| ==> Separator !in parts[i]
    ensures Split(Join(parts)) == parts
    decreases |parts|
  {
    var head := parts[0];
    if |parts| == 1 {
      SplitPrefix(head, []);
      assert head + [] == head;
    } else {
      var tail := parts[1..];
      var rest := [Separator] + Join(tail);
      SplitJoin(tail);
      SplitAfterSeparator(Join(tail));
      SplitPrefix(head, rest);
      assert Join(parts) == head + rest;
      assert head + [] == head;
      assert parts == [head] + tail;
    }
  }

  /** A leading comma ends an empty first piece. */
  lemma SplitAfterSeparator(t: string)
    ensures Split([Separator] + t) == [[]] + Split(t)
  {
    assert ([Separator] + t)[1..] == t;
  }

  predicate IsDigit(c: char) {
    '0' <= c <= '9'
  }

  predicate AllDigits(s: string) {
    forall i :: 0 <= i < |s| ==> IsDigit(s[i])
  }

  function DigitChar(d: nat): (c: char)
    requires d < 10
    ensures IsDigit(c) && c as int - '0' as int == d
  {
    (('0' as int) + d) as char
  }

  /** `n.toString()` for a non-negative integer: its decimal digits, most significant first. */
  function Show(n: nat): (s: string)
    ensures s != [] && AllDigits(s)
    ensures Separator !in s
  {
    if n < 10 then [DigitChar(n)] else Show(n / 10) + [DigitChar(n % 10)]
  }

  /** The value of a string of decimal digits (the empty string has value 0). */
  function DigitsValue(s: string): nat
    requires AllDigits(s)
  {
    if s == [] then 0 else DigitsValue(s[..|s| - 1]) * 10 + (s[|s| - 1] as int - '0' as int)
  }

  /** `Number(s)` for a stored string, `None` standing for `NaN`: a string of decimal
      digits denotes its value and `""` denotes 0, as in JavaScript; anything else is `NaN`. */
  function ToNumber(s: string): (n: Option<nat>)
    ensures n.Some? <==> AllDigits(s)
    ensures s == [] ==> n == Some(0)
  {
    if AllDigits(s) then Some(DigitsValue(s)) else None
  }

  /** Converting an id to text and back yields the id. */
  lemma {:induction false} ToNumberShow(n: nat)
    ensures ToNumber(Show(n)) == Some(n)
  {
    ShowValue(n);
  }

  lemma {:induction false} ShowValue(n: nat)
    ensures DigitsValue(Show(n)) == n
  {
    if n >= 10 {
      var s := Show(n);
      ShowValue(n / 10);
      assert s[..|s| - 1] == Show(n / 10);
    }
  }

}

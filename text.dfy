/** Character and string operations the JavaScript code relies on:
    `toLowerCase`, `includes`, `join`, `substring` and the decimal rendering of
    integers (`Number#toString`, template literals). */
module Text {

  /** `toLowerCase` on one character, for the ASCII letters A-Z (other
      characters are returned unchanged). */
  function LowerChar(c: char): char
  {
    if 'A' <= c <= 'Z' then (c as int + 32) as char else c
  }

  /** `String.prototype.toLowerCase`, character by character. */
  function Lower(s: string): (r: string)
    ensures |r| == |s|
    ensures forall i :: 0 <= i < |s| ==> r[i] == LowerChar(s[i])
  {
    seq(|s|, i requires 0 <= i < |s| => LowerChar(s[i]))
  }

  predicate IsPrefix(p: string, s: string)
  {
    |p| <= |s| && s[..|p|] == p
  }

  /** `s.includes(t)`: does `t` occur in `s` as a contiguous substring? */
  function Contains(s: string, t: string): bool
    decreases |s|
  {
    IsPrefix(t, s) || (|s| > 0 && Contains(s[1..], t))
  }

  /** `t` occurs in `s` starting at index `i`. */
  ghost predicate OccursAt(s: string, t: string, i: int)
  {
    0 <= i && i + |t| <= |s| && s[i..i + |t|] == t
  }

  /** `Contains` is exactly "some position of `s` starts a copy of `t`". */
  lemma {:induction false} ContainsIff(s: string, t: string)
    ensures Contains(s, t) <==> exists i :: OccursAt(s, t, i)
    decreases |s|
  {
    if IsPrefix(t, s) {
      assert OccursAt(s, t, 0);
    } else if |s| == 0 {
    } else {
      ContainsIff(s[1..], t);
      if exists i :: OccursAt(s[1..], t, i) {
        var i :| OccursAt(s[1..], t, i);
        assert s[1..][i..i + |t|] == s[i + 1..i + 1 + |t|];
        assert OccursAt(s, t, i + 1);
      }
      if exists i :: OccursAt(s, t, i) {
        var i :| OccursAt(s, t, i);
        assert s[1..][i - 1..i - 1 + |t|] == s[i..i + |t|];
        assert OccursAt(s[1..], t, i - 1);
      }
    }
  }

  /** The empty string occurs in every string, so an empty search term
      matches everything. */
  lemma ContainsEmpty(s: string)
    ensures Contains(s, "")
  {
    assert IsPrefix("", s);
  }

  /** Number of occurrences of the character `c` in `s`. */
  function Count(c: char, s: string): nat
  {
    if s == [] then 0 else (if s[0] == c then 1 else 0) + Count(c, s[1..])
  }

  lemma {:induction false} CountAppend(c: char, a: string, b: string)
    ensures Count(c, a + b) == Count(c, a) + Count(c, b)
  {
    if a != [] {
      assert (a + b)[1..] == a[1..] + b;
      CountAppend(c, a[1..], b);
    } else {
      assert a + b == b;
    }
  }

  /** Sum of `Count(c, x)` over the strings of `xs`. */
  function CountAll(c: char, xs: seq<string>): nat
  {
    if xs == [] then 0 else Count(c, xs[0]) + CountAll(c, xs[1..])
  }

  /** `xs.join(sep)`. */
  function Join(sep: string, xs: seq<string>): string
  {
    if |xs| == 0 then "" else if |xs| == 1 then xs[0] else xs[0] + sep + Join(sep, xs[1..])
  }

  /** Joining `n >= 1` strings with a one-character separator adds exactly
      `n - 1` copies of that separator to the ones already in the strings,
      whatever the strings contain: no quoting or escaping takes place. */
  lemma {:induction false} JoinCount(c: char, xs: seq<string>)
    requires |xs| >= 1
    ensures Count(c, Join([c], xs)) == |xs| - 1 + CountAll(c, xs)
  {
    if |xs| > 1 {
      JoinCount(c, xs[1..]);
      CountAppend(c, xs[0] + [c], Join([c], xs[1..]));
      CountAppend(c, xs[0], [c]);
      assert Count(c, [c]) == 1;
    }
  }

  function Digit(d: nat): char
    requires d < 10
  {
    "0123456789"[d]
  }

  predicate IsDigit(c: char)
  {
    '0' <= c <= '9'
  }

  /** Decimal rendering of a natural number, without leading zeros. */
  function ShowNat(n: nat): (r: string)
    ensures |r| > 0
    ensures forall i :: 0 <= i < |r| ==> IsDigit(r[i])
    ensures n >= 10 ==> r[0] != '0'
  {
    if n < 10 then [Digit(n)] else ShowNat(n / 10) + [Digit(n % 10)]
  }

  /** Reads a string of decimal digits back as a number. */
  function ParseNat(s: string): nat
    requires forall i :: 0 <= i < |s| ==> IsDigit(s[i])
  {
    if s == [] then 0
    else
      assert IsDigit(s[|s| - 1]);
      10 * ParseNat(s[..|s| - 1]) + (s[|s| - 1] as int - '0' as int)
  }

  /** `ShowNat` loses no information: parsing its output gives the number back. */
  lemma {:induction false} ParseShowNat(n: nat)
    ensures ParseNat(ShowNat(n)) == n
  {
    if n >= 10 {
      var r := ShowNat(n);
      assert r[..|r| - 1] == ShowNat(n / 10);
      ParseShowNat(n / 10);
    }
  }

  /** Decimal rendering of an integer as JavaScript writes it: a leading '-'
      for negative numbers. */
  function ShowInt(n: int): (r: string)
    ensures |r| > 0
    ensures forall i :: 0 <= i < |r| ==> IsDigit(r[i]) || (i == 0 && r[i] == '-')
  {
    if n < 0 then "-" + ShowNat(-n) else ShowNat(n)
  }

  /** A rendered integer never holds a comma or a line break, so it cannot
      add columns or lines to a CSV text. */
  lemma ShowIntPlain(n: int)
    ensures Count(',', ShowInt(n)) == 0 && Count('\n', ShowInt(n)) == 0
  {
    NoCount(',', ShowInt(n));
    NoCount('\n', ShowInt(n));
  }

  lemma {:induction false} NoCount(c: char, s: string)
    requires forall i :: 0 <= i < |s| ==> s[i] != c
    ensures Count(c, s) == 0
  {
    if s != [] {
      NoCount(c, s[1..]);
    }
  }

  /** A string made by joining strings that lack `c` with a separator that
      lacks `c` lacks `c` too. */
  lemma {:induction false} JoinLacks(c: char, sep: string, xs: seq<string>)
    requires Count(c, sep) == 0
    requires forall i :: 0 <= i < |xs| ==> Count(c, xs[i]) == 0
    ensures Count(c, Join(sep, xs)) == 0
  {
    if |xs| > 1 {
      JoinLacks(c, sep, xs[1..]);
      CountAppend(c, xs[0] + sep, Join(sep, xs[1..]));
      CountAppend(c, xs[0], sep);
    }
  }

  /** Joining with a separator that lacks `c` adds no `c`: the result holds
      exactly the ones in the joined strings. */
  lemma {:induction false} JoinCountFree(c: char, sep: string, xs: seq<string>)
    requires Count(c, sep) == 0
    ensures Count(c, Join(sep, xs)) == CountAll(c, xs)
  {
    if |xs| == 1 {
      assert xs[1..] == [];
    } else if |xs| > 1 {
      JoinCountFree(c, sep, xs[1..]);
      CountAppend(c, xs[0] + sep, Join(sep, xs[1..]));
      CountAppend(c, xs[0], sep);
    }
  }

  /** Each row joined with ',' (`row.join(',')` for every row). */
  function JoinRows(rows: seq<seq<string>>): (r: seq<string>)
    ensures |r| == |rows|
    ensures forall i :: 0 <= i < |rows| ==> r[i] == Join(",", rows[i])
  {
    if rows == [] then [] else [Join(",", rows[0])] + JoinRows(rows[1..])
  }

  /** `rows.map(row => row.join(',')).join('\n')`: comma-separated fields,
      one row per line, nothing quoted or escaped. */
  function CsvText(rows: seq<seq<string>>): string
  {
    Join("\n", JoinRows(rows))
  }

  /** When no field holds a line break, the text has exactly one line per
      row: `|rows| - 1` line breaks. */
  lemma CsvLines(rows: seq<seq<string>>)
    requires |rows| >= 1
    requires forall i, j :: 0 <= i < |rows| && 0 <= j < |rows[i]| ==> Count('\n', rows[i][j]) == 0
    ensures Count('\n', CsvText(rows)) == |rows| - 1
  {
    var joined := JoinRows(rows);
    forall i | 0 <= i < |joined| ensures Count('\n', joined[i]) == 0 {
      JoinLacks('\n', ",", rows[i]);
    }
    JoinCount('\n', joined);
    CountAllZero('\n', joined);
  }

  lemma {:induction false} CountAllZero(c: char, xs: seq<string>)
    requires forall i :: 0 <= i < |xs| ==> Count(c, xs[i]) == 0
    ensures CountAll(c, xs) == 0
  {
    if xs != [] {
      CountAllZero(c, xs[1..]);
    }
  }

  /** Lexicographic order on strings, character code by character code. */
  predicate LexLe(a: string, b: string)
    decreases |a|
  {
    a == [] || (b != [] && (a[0] < b[0] || (a[0] == b[0] && LexLe(a[1..], b[1..]))))
  }

  lemma {:induction false} LexTotal(a: string, b: string)
    ensures LexLe(a, b) || LexLe(b, a)
    decreases |a|
  {
    if a != [] && b != [] && a[0] == b[0] {
      LexTotal(a[1..], b[1..]);
    }
  }

  lemma {:induction false} LexTrans(a: string, b: string, c: string)
    requires LexLe(a, b) && LexLe(b, c)
    ensures LexLe(a, c)
    decreases |a|
  {
    if a != [] && b != [] && c != [] && a[0] == b[0] && b[0] == c[0] {
      LexTrans(a[1..], b[1..], c[1..]);
    }
  }
}

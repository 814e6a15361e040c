/** Text helpers shared by the GLSL printer and the debug report: joining items with a separator,
    splitting text back into items, and decimal rendering of integers as `std::ostream` writes them. */
module Text {
  import opened Results

  /** The items with `sep` between each pair of neighbours: what a joiner writes when it puts the
      separator before every item except the first. */
  function Join(items: seq<string>, sep: string): string
  {
    if |items| == 0 then ""
    else if |items| == 1 then items[0]
    else items[0] + sep + Join(items[1..], sep)
  }

  /** Adding one item to a join writes the separator first, unless the item is the first one. */
  lemma {:induction false} JoinSnoc(items: seq<string>, x: string, sep: string)
    ensures Join(items + [x], sep) == Join(items, sep) + (if |items| == 0 then "" else sep) + x
  {
    if |items| == 0 {
      assert items + [x] == [x];
    } else if |items| == 1 {
      assert items + [x] == [items[0], x];
      assert [items[0], x][1..] == [x];
    } else {
      assert (items + [x])[1..] == items[1..] + [x];
      JoinSnoc(items[1..], x, sep);
    }
  }

  /** Joining two non-empty runs of items puts one separator between the two joins. */
  lemma {:induction false} JoinAppend(xs: seq<string>, ys: seq<string>, sep: string)
    requires |xs| >= 1
    ensures Join(xs + ys, sep) == Join(xs, sep) + (if ys == [] then "" else sep + Join(ys, sep))
    decreases |xs|
  {
    if ys == [] {
      assert xs + ys == xs;
    } else if |xs| == 1 {
      assert (xs + ys)[1..] == ys;
    } else {
      assert (xs + ys)[1..] == xs[1..] + ys;
      JoinAppend(xs[1..], ys, sep);
    }
  }

  /** Regrouping three pieces of text. */
  lemma ConcatAssoc3(a: string, b: string, c: string)
    ensures a + b + c == a + (b + c)
  {
  }

  /** Regrouping four pieces of text. */
  lemma ConcatAssoc(a: string, b: string, c: string, d: string)
    ensures a + b + c + d == a + (b + c + d)
  {
  }

  /** A character that occurs neither in the items nor in the separator does not occur in their join. */
  lemma {:induction false} JoinExcludes(items: seq<string>, sep: string, c: char)
    requires c !in sep
    requires forall i :: 0 <= i < |items| ==> c !in items[i]
    ensures c !in Join(items, sep)
  {
    if |items| > 1 {
      JoinExcludes(items[1..], sep, c);
    }
  }

  /** The pieces of `s` between the non-overlapping occurrences of `sep`, found from the left. */
  function Split(s: string, sep: string): (pieces: seq<string>)
    requires |sep| > 0
    ensures |pieces| >= 1
    decreases |s|
  {
    if |sep| <= |s| && s[..|sep|] == sep then [""] + Split(s[|sep|..], sep)
    else if |s| == 0 then [""]
    else
      var rest := Split(s[1..], sep);
      [[s[0]] + rest[0]] + rest[1..]
  }

  /** Text free of the separator's first character is a single piece. */
  lemma {:induction false} SplitWhole(x: string, sep: string)
    requires |sep| > 0 && sep[0] !in x
    ensures Split(x, sep) == [x]
    decreases |x|
  {
    if |x| > 0 {
      assert x[0] in x;
      assert forall c :: c in x[1..] ==> c in x;
      SplitWhole(x[1..], sep);
      assert [x[0]] + x[1..] == x;
    }
  }

  /** A leading item free of the separator's first character splits off exactly. */
  lemma {:induction false} SplitLeading(x: string, sep: string, rest: string)
    requires |sep| > 0 && sep[0] !in x
    ensures Split(x + sep + rest, sep) == [x] + Split(rest, sep)
    decreases |x|
  {
    var s := x + sep + rest;
    if |x| == 0 {
      assert s == sep + rest;
      assert s[..|sep|] == sep;
      assert s[|sep|..] == rest;
    } else {
      assert x[0] in x;
      assert s[0] == x[0];
      assert forall c :: c in x[1..] ==> c in x;
      SplitLeading(x[1..], sep, rest);
      assert s[1..] == x[1..] + sep + rest;
      assert [x[0]] + x[1..] == x;
    }
  }

  /** Splitting a join gives the items back when no item contains the separator's first character. */
  lemma {:induction false} SplitJoin(items: seq<string>, sep: string)
    requires |sep| > 0 && |items| >= 1
    requires forall i :: 0 <= i < |items| ==> sep[0] !in items[i]
    ensures Split(Join(items, sep), sep) == items
  {
    if |items| == 1 {
      SplitWhole(items[0], sep);
    } else {
      SplitJoin(items[1..], sep);
      SplitLeading(items[0], sep, Join(items[1..], sep));
      assert [items[0]] + items[1..] == items;
    }
  }

  /** True when `p` is a prefix of `s`. */
  predicate HasPrefix(s: string, p: string)
  {
    |p| <= |s| && s[..|p|] == p
  }

  /** Text whose first character differs from that of `p` does not start with `p`. */
  lemma FirstCharDiffers(s: string, p: string)
    requires |s| > 0 && |p| > 0 && s[0] != p[0]
    ensures !HasPrefix(s, p) && s != p
  {
    if |p| <= |s| {
      assert s[..|p|][0] == s[0];
    }
  }

  // ---------------------------------------------------------------- decimal numbers

  predicate IsDigit(c: char)
  {
    '0' <= c <= '9'
  }

  predicate AllDigits(s: string)
  {
    forall i :: 0 <= i < |s| ==> IsDigit(s[i])
  }

  function DigitChar(d: nat): (c: char)
    requires d < 10
    ensures IsDigit(c)
  {
    (('0' as int) + d) as char
  }

  function DigitValue(c: char): (d: nat)
    requires IsDigit(c)
    ensures d < 10 && DigitChar(d) == c
  {
    (c as int) - ('0' as int)
  }

  /** The decimal rendering `std::ostream` gives a non-negative integer: at least one digit, only
      digits, and no leading zero. */
  function Decimal(n: nat): (s: string)
    ensures |s| >= 1 && AllDigits(s)
    ensures s[0] == '0' ==> n == 0
    decreases n
  {
    if n < 10 then [DigitChar(n)] else Decimal(n / 10) + [DigitChar(n % 10)]
  }

  /** What `out << value` writes for a signed integer: a minus sign exactly when the value is
      negative, then the digits of its magnitude. */
  function IntDecimal(x: int): (s: string)
    ensures |s| >= 1 && (s[0] == '-' <==> x < 0)
    ensures x >= 0 ==> AllDigits(s)
  {
    if x < 0 then "-" + Decimal(-x) else Decimal(x)
  }

  /** The value of a string of decimal digits, most significant first. */
  function DecimalValue(s: string): nat
    requires AllDigits(s)
  {
    if s == [] then 0 else DecimalValue(s[..|s| - 1]) * 10 + DigitValue(s[|s| - 1])
  }

  /** Reads a non-empty string of decimal digits; anything else is not a number. */
  function ParseDecimal(s: string): Option<nat>
  {
    if |s| >= 1 && AllDigits(s) then Some(DecimalValue(s)) else None
  }

  /** Reading back the decimal rendering of a number gives the number. */
  lemma {:induction false} DecimalRoundTrip(n: nat)
    ensures ParseDecimal(Decimal(n)) == Some(n)
    decreases n
  {
    if n < 10 {
      var s := Decimal(n);
      assert s == [DigitChar(n)];
      assert s[..0] == [];
      assert DecimalValue(s) == DigitValue(DigitChar(n)) == n;
    } else {
      DecimalRoundTrip(n / 10);
      var d := Decimal(n / 10);
      var s := d + [DigitChar(n % 10)];
      assert s[..|s| - 1] == d;
      assert DigitValue(DigitChar(n % 10)) == n % 10;
    }
  }
}

/** Values and sequence helpers shared by every part of the model.

    Querysets are modelled as sequences of row values; `filter(...)` is `Filter`,
    a slice `[:n]` is `Take`, and a request's GET parameters are a map from
    parameter name to its (last) value. */
module Common {

  datatype Option<T> = None | Some(value: T)

  /** `request.GET.get(name, default)`: the value when the parameter is present. */
  function Get(params: map<string, string>, name: string, default: string): string
  {
    if name in params then params[name] else default
  }

  /** A form's error list is built field by field: `x` goes in front of the
      errors of the later fields when its check fails. */
  function PrependIf<T(!new)>(fails: bool, x: T, rest: seq<T>): (r: seq<T>)
    ensures forall y :: y in r <==> (fails && y == x) || y in rest
    ensures |r| <= |rest| + 1
  {
    if fails then [x] + rest else rest
  }

  /** ASCII case folding, the part of the database's case-insensitive match the model keeps. */
  function LowerChar(c: char): char
  {
    if 'A' <= c <= 'Z' then (c as int + 32) as char else c
  }

  function Lower(s: string): string
  {
    if s == [] then [] else [LowerChar(s[0])] + Lower(s[1..])
  }

  predicate IsPrefix(p: string, s: string)
  {
    |p| <= |s| && s[..|p|] == p
  }

  /** `p` occurs in `s` as a contiguous block, searched position by position. */
  predicate Contains(s: string, p: string)
    decreases |s|
  {
    IsPrefix(p, s) || (|s| > 0 && Contains(s[1..], p))
  }

  /** The positional definition of "`p` occurs in `s`". */
  predicate OccursAt(s: string, p: string, i: int)
  {
    0 <= i && i + |p| <= |s| && s[i..i + |p|] == p
  }

  /** `Contains` agrees with the positional definition of a substring. */
  lemma {:induction false} ContainsIffOccurs(s: string, p: string)
    ensures Contains(s, p) <==> exists i :: OccursAt(s, p, i)
    decreases |s|
  {
    if IsPrefix(p, s) {
      assert OccursAt(s, p, 0);
    }
    if |s| > 0 {
      ContainsIffOccurs(s[1..], p);
      if Contains(s[1..], p) {
        var i :| OccursAt(s[1..], p, i);
        assert s[i + 1..i + 1 + |p|] == s[1..][i..i + |p|];
        assert OccursAt(s, p, i + 1);
      }
      if i :| OccursAt(s, p, i) {
        if i == 0 {
          assert IsPrefix(p, s);
        } else {
          assert s[1..][i - 1..i - 1 + |p|] == s[i..i + |p|];
          assert OccursAt(s[1..], p, i - 1);
        }
      }
    } else {
      if i :| OccursAt(s, p, i) {
        assert |p| == 0 && p == [];
        assert IsPrefix(p, s);
      }
    }
  }

  /** `field__icontains=q`: a case-insensitive substring match. */
  predicate IContains(field: string, q: string)
  {
    Contains(Lower(field), Lower(q))
  }

  /** `queryset.filter(p)`: the rows satisfying `p`, in their original order. */
  function Filter<T(!new)>(s: seq<T>, p: T -> bool): (r: seq<T>)
    ensures |r| <= |s|
    ensures forall x :: x in r <==> x in s && p(x)
    ensures forall i :: 0 <= i < |r| ==> p(r[i])
  {
    if s == [] then [] else (if p(s[0]) then [s[0]] else []) + Filter(s[1..], p)
  }

  /** A filter that every row passes keeps the rows as they are, in their order. */
  lemma {:induction false} FilterAll<T(!new)>(s: seq<T>, p: T -> bool)
    requires forall x :: x in s ==> p(x)
    ensures Filter(s, p) == s
  {
    if s != [] {
      assert s[0] in s;
      assert forall x :: x in s[1..] ==> x in s;
      FilterAll(s[1..], p);
      assert s == [s[0]] + s[1..];
    }
  }

  /** `if param: queryset = queryset.filter(p)`: a filter applied only when its
      parameter was given. */
  function When<T(!new)>(s: seq<T>, given: bool, p: T -> bool): (r: seq<T>)
    ensures forall x :: x in r <==> x in s && (!given || p(x))
  {
    if given then Filter(s, p) else s
  }

  /** `queryset.filter(p).count()` */
  function Count<T(!new)>(s: seq<T>, p: T -> bool): nat
  {
    |Filter(s, p)|
  }

  /** Counting under a weaker condition never gives fewer rows. */
  lemma {:induction false} CountMonotone<T(!new)>(s: seq<T>, p: T -> bool, q: T -> bool)
    requires forall x :: p(x) ==> q(x)
    ensures Count(s, p) <= Count(s, q)
  {
    if s != [] {
      CountMonotone(s[1..], p, q);
      assert Filter(s, p) == (if p(s[0]) then [s[0]] else []) + Filter(s[1..], p);
      assert Filter(s, q) == (if q(s[0]) then [s[0]] else []) + Filter(s[1..], q);
    }
  }

  /** Three mutually exclusive conditions select at most all rows between them. */
  lemma {:induction false} CountDisjoint3<T(!new)>(s: seq<T>, p: T -> bool, q: T -> bool, u: T -> bool)
    requires forall x :: !(p(x) && q(x)) && !(p(x) && u(x)) && !(q(x) && u(x))
    ensures Count(s, p) + Count(s, q) + Count(s, u) <= |s|
  {
    if s != [] {
      CountDisjoint3(s[1..], p, q, u);
      assert Filter(s, p) == (if p(s[0]) then [s[0]] else []) + Filter(s[1..], p);
      assert Filter(s, q) == (if q(s[0]) then [s[0]] else []) + Filter(s[1..], q);
      assert Filter(s, u) == (if u(s[0]) then [s[0]] else []) + Filter(s[1..], u);
    }
  }

  /** A condition and its negation split the rows between them. */
  lemma {:induction false} CountSplit<T(!new)>(s: seq<T>, p: T -> bool, q: T -> bool)
    requires forall x :: p(x) != q(x)
    ensures Count(s, p) + Count(s, q) == |s|
  {
    if s != [] {
      CountSplit(s[1..], p, q);
      assert Filter(s, p) == (if p(s[0]) then [s[0]] else []) + Filter(s[1..], p);
      assert Filter(s, q) == (if q(s[0]) then [s[0]] else []) + Filter(s[1..], q);
    }
  }

  /** `queryset[:n]`: at most `n` rows, a prefix of the input. */
  function Take<T>(s: seq<T>, n: nat): (r: seq<T>)
    ensures |r| <= n && |r| <= |s|
    ensures |s| <= n ==> r == s
    ensures |s| > n ==> |r| == n
    ensures r == s[..|r|]
    ensures forall x :: x in r ==> x in s
  {
    if |s| <= n then s else s[..n]
  }

  /** A list view's queryset: the rows, or the parameter whose value the
      database layer refused (the request then fails). */
  datatype Listing<T> = Listed(rows: seq<T>) | BadParameter(name: string)

  /** The outcome of `queryset.get(...)`. */
  datatype Lookup<T> = Found(row: T) | NotFound | MultipleFound

  /** `queryset.get(p)`: the one matching row; none is `DoesNotExist` (a 404 page
      in a detail view) and several is `MultipleObjectsReturned`. */
  function GetWhere<T(!new)>(s: seq<T>, p: T -> bool): (r: Lookup<T>)
    ensures r.Found? ==> r.row in s && p(r.row)
    ensures r.NotFound? <==> forall x :: x in s ==> !p(x)
    ensures r.MultipleFound? ==> exists i, j :: 0 <= i < j < |s| && p(s[i]) && p(s[j])
  {
    var m := Filter(s, p);
    if |m| == 0 then NotFound
    else if |m| == 1 then Found(m[0])
    else
      FilterTwoMatches(s, p);
      MultipleFound
  }

  lemma {:induction false} FilterTwoMatches<T(!new)>(s: seq<T>, p: T -> bool)
    requires |Filter(s, p)| >= 2
    ensures exists i, j :: 0 <= i < j < |s| && p(s[i]) && p(s[j])
  {
    if p(s[0]) {
      assert Filter(s[1..], p) != [];
      var x := Filter(s[1..], p)[0];
      var k :| 0 <= k < |s[1..]| && s[1..][k] == x;
      assert p(s[0]) && p(s[k + 1]);
    } else {
      FilterTwoMatches(s[1..], p);
      var i, j :| 0 <= i < j < |s[1..]| && p(s[1..][i]) && p(s[1..][j]);
      assert p(s[i + 1]) && p(s[j + 1]);
    }
  }

  /** A lookup by a unique column never finds several rows. */
  lemma UniqueLookup<T(!new)>(s: seq<T>, p: T -> bool)
    requires forall i, j :: 0 <= i < j < |s| && p(s[i]) ==> !p(s[j])
    ensures !GetWhere(s, p).MultipleFound?
  {
  }

  // ---------------------------------------------------------------- numbers in text

  predicate IsDigit(c: char) { '0' <= c <= '9' }

  predicate AllDigits(s: string) { forall i :: 0 <= i < |s| ==> IsDigit(s[i]) }

  /** The value of a run of decimal digits. */
  function DigitsValue(s: string): nat
    requires AllDigits(s)
  {
    if s == [] then 0
    else
      var last := s[|s| - 1];
      assert IsDigit(last);
      DigitsValue(s[..|s| - 1]) * 10 + (last as int - '0' as int)
  }

  /** `int(s)` on an optionally signed run of decimal digits; anything else is a
      `ValueError` (None). */
  function ParseInt(s: string): (r: Option<int>)
    ensures r.Some? ==> s != ""
    ensures s != "" && AllDigits(s) ==> r == Some(DigitsValue(s))
    ensures |s| > 1 && s[0] == '-' && AllDigits(s[1..]) ==> r == Some(0 - DigitsValue(s[1..]) as int)
  {
    var signed := |s| > 0 && (s[0] == '-' || s[0] == '+');
    var digits := if signed then s[1..] else s;
    if digits == [] || !AllDigits(digits) then None
    else if s[0] == '-' then Some(0 - DigitsValue(digits) as int)
    else Some(DigitsValue(digits))
  }

  function Pow10(n: nat): (r: nat)
    ensures r >= 1
  {
    if n == 0 then 1 else 10 * Pow10(n - 1)
  }

  /** A decimal number `units / 10^scale`, as a price bound parameter denotes it. */
  datatype Decimal = Decimal(units: int, scale: nat)

  /** The digits of `s`, in order, with every other character dropped. */
  function DigitsOf(s: string): string
  {
    if s == [] then [] else (if IsDigit(s[0]) then [s[0]] else []) + DigitsOf(s[1..])
  }

  lemma {:induction false} DigitsOfAreDigits(s: string)
    ensures AllDigits(DigitsOf(s))
  {
    if s != [] {
      DigitsOfAreDigits(s[1..]);
    }
  }

  /** The number the digits of `s` spell, whatever else `s` holds. */
  function DigitsNumber(s: string): nat
  {
    DigitsOfAreDigits(s);
    DigitsValue(DigitsOf(s))
  }

  lemma {:induction false} DigitsOfAppend(a: string, b: string)
    ensures DigitsOf(a + b) == DigitsOf(a) + DigitsOf(b)
  {
    if a == [] {
      assert a + b == b;
    } else {
      var head := if IsDigit(a[0]) then [a[0]] else [];
      calc {
        DigitsOf(a + b);
        { assert (a + b)[1..] == a[1..] + b; }
        head + DigitsOf(a[1..] + b);
        { DigitsOfAppend(a[1..], b); }
        head + (DigitsOf(a[1..]) + DigitsOf(b));
        (head + DigitsOf(a[1..])) + DigitsOf(b);
      }
    }
  }

  lemma {:induction false} DigitsOfDigits(a: string)
    requires AllDigits(a)
    ensures DigitsOf(a) == a
  {
    if a != [] {
      DigitsOfDigits(a[1..]);
    }
  }

  /** `s` without its leading sign, if it has one. */
  function Unsigned(s: string): (r: string)
    ensures |s| > 0 && (s[0] == '-' || s[0] == '+') ==> r == s[1..]
  {
    if |s| > 0 && (s[0] == '-' || s[0] == '+') then s[1..] else s
  }

  /** Digits with at most one point among them, and at least one digit. */
  predicate PointedDigits(body: string)
  {
    (forall i :: 0 <= i < |body| ==> IsDigit(body[i]) || body[i] == '.')
    && (forall i, j :: 0 <= i < j < |body| ==> body[i] != '.' || body[j] != '.')
    && DigitsOf(body) != []
  }

  /** The text a decimal price parameter may take: an optional sign, then
      digits with at most one point among them and at least one digit. */
  predicate DecimalText(s: string)
  {
    PointedDigits(Unsigned(s))
  }

  /** The digits after the first point of `s` (none when it has no point). */
  function FractionDigits(s: string): string
  {
    DigitsOf(s[FirstIndex(s, '.')..])
  }

  /** A point splits the digits of `body` between its two sides. */
  lemma DigitsAroundPoint(body: string, dot: nat)
    requires dot < |body| && body[dot] == '.'
    ensures DigitsOf(body) == DigitsOf(body[..dot]) + DigitsOf(body[dot + 1..])
    ensures DigitsOf(body[dot..]) == DigitsOf(body[dot + 1..])
  {
    var whole, frac := body[..dot], body[dot + 1..];
    calc {
      DigitsOf(body);
      { assert body == whole + (['.'] + frac); }
      DigitsOf(whole + (['.'] + frac));
      { DigitsOfAppend(whole, ['.'] + frac); }
      DigitsOf(whole) + DigitsOf(['.'] + frac);
      { PointDigits(frac); }
      DigitsOf(whole) + DigitsOf(frac);
    }
    calc {
      DigitsOf(body[dot..]);
      { assert body[dot..] == ['.'] + frac; }
      DigitsOf(['.'] + frac);
      { PointDigits(frac); }
      DigitsOf(frac);
    }
  }

  /** A point contributes no digit. */
  lemma PointDigits(frac: string)
    ensures DigitsOf(['.'] + frac) == DigitsOf(frac)
  {
    assert (['.'] + frac)[1..] == frac;
  }

  /** Splitting an unsigned parameter at its first point: its digits are those
      of the two sides, and the fraction's are those after the point. */
  lemma SplitDigits(body: string, dot: nat, whole: string, frac: string)
    requires dot == FirstIndex(body, '.')
    requires whole == (if dot < |body| then body[..dot] else body)
    requires frac == (if dot < |body| then body[dot + 1..] else "")
    ensures DigitsOf(body) == DigitsOf(whole) + DigitsOf(frac)
    ensures FractionDigits(body) == DigitsOf(frac)
  {
    if dot < |body| {
      DigitsAroundPoint(body, dot);
    } else {
      assert body[dot..] == [];
      assert DigitsOf(whole) + [] == DigitsOf(whole);
    }
  }

  /** Digits after the first point leave no second point. */
  lemma SidesMakePointedDigits(body: string, dot: nat, frac: string)
    requires dot == FirstIndex(body, '.')
    requires frac == (if dot < |body| then body[dot + 1..] else "")
    requires AllDigits(frac)
    ensures forall i, j :: 0 <= i < j < |body| ==> body[i] != '.' || body[j] != '.'
  {
    forall i, j | 0 <= i < j < |body| && body[i] == '.' ensures body[j] != '.' {
      assert body[j] == frac[j - dot - 1];
    }
  }

  /** Digit runs on both sides of the first point, not both empty, make `PointedDigits`. */
  lemma SidesToPointed(body: string, dot: nat, whole: string, frac: string)
    requires dot == FirstIndex(body, '.')
    requires whole == (if dot < |body| then body[..dot] else body)
    requires frac == (if dot < |body| then body[dot + 1..] else "")
    requires AllDigits(whole) && AllDigits(frac) && |whole| + |frac| > 0
    ensures PointedDigits(body)
  {
    SplitDigits(body, dot, whole, frac);
    DigitsOfDigits(whole);
    DigitsOfDigits(frac);
    SidesMakePointedDigits(body, dot, frac);
    forall i | 0 <= i < |body| ensures IsDigit(body[i]) || body[i] == '.' {
      if i < dot {
        assert body[i] == whole[i];
      } else if i > dot {
        assert body[i] == frac[i - dot - 1];
      }
    }
  }

  /** `PointedDigits` leaves digit runs on both sides of the first point, not both empty. */
  lemma PointedToSides(body: string, dot: nat, whole: string, frac: string)
    requires dot == FirstIndex(body, '.')
    requires whole == (if dot < |body| then body[..dot] else body)
    requires frac == (if dot < |body| then body[dot + 1..] else "")
    requires PointedDigits(body)
    ensures AllDigits(whole) && AllDigits(frac) && |whole| + |frac| > 0
  {
    forall i | 0 <= i < |whole| ensures IsDigit(whole[i]) {
      assert whole[i] == body[i];
    }
    forall i | 0 <= i < |frac| ensures IsDigit(frac[i]) {
      assert frac[i] == body[dot + 1 + i];
      assert body[dot] == '.';
    }
    SplitDigits(body, dot, whole, frac);
    DigitsOfDigits(whole);
    DigitsOfDigits(frac);
  }

  /** Both sides digit runs, not both empty, is exactly `PointedDigits`. */
  lemma SplitAtPoint(body: string, dot: nat, whole: string, frac: string)
    requires dot == FirstIndex(body, '.')
    requires whole == (if dot < |body| then body[..dot] else body)
    requires frac == (if dot < |body| then body[dot + 1..] else "")
    ensures AllDigits(whole) && AllDigits(frac) && |whole| + |frac| > 0 <==> PointedDigits(body)
    ensures AllDigits(whole) && AllDigits(frac) ==> DigitsOf(body) == whole + frac && FractionDigits(body) == frac
  {
    SplitDigits(body, dot, whole, frac);
    if AllDigits(whole) && AllDigits(frac) {
      DigitsOfDigits(whole);
      DigitsOfDigits(frac);
      if |whole| + |frac| > 0 {
        SidesToPointed(body, dot, whole, frac);
      }
    }
    if PointedDigits(body) {
      PointedToSides(body, dot, whole, frac);
    }
  }

  /** The decimal conversion of a price parameter: it succeeds exactly on
      `DecimalText`, reads all the digits as the number of units, negated after
      a minus sign, and counts the digits after the point as the scale. */
  function ParseDecimal(s: string): (r: Option<Decimal>)
    ensures r.Some? <==> DecimalText(s)
    ensures r.Some? ==> r.value.units == if s[0] == '-' then -(DigitsNumber(s) as int) else DigitsNumber(s)
    ensures r.Some? ==> r.value.scale == |FractionDigits(s)| < |s|
  {
    var negative := |s| > 0 && s[0] == '-';
    var body := Unsigned(s);
    var dot := FirstIndex(body, '.');
    var whole := if dot < |body| then body[..dot] else body;
    var frac := if dot < |body| then body[dot + 1..] else "";
    SplitAtPoint(body, dot, whole, frac);
    UnsignedDigits(s);
    assert |body| <= |s|;
    if !AllDigits(whole) || !AllDigits(frac) || |whole| + |frac| == 0 then None
    else
      var units: int := DigitsValue(whole + frac);
      Some(Decimal(if negative then -units else units, |frac|))
  }

  /** A decimal written as digits, a point and digits parses to all its digits
      over ten to the number of digits after the point. */
  lemma ParseDecimalPointed(whole: string, frac: string)
    requires AllDigits(whole) && AllDigits(frac) && |whole| + |frac| > 0
    ensures ParseDecimal(whole + "." + frac) == Some(Decimal(DigitsValue(whole + frac), |frac|))
  {
    var s := whole + "." + frac;
    assert FirstIndex(s, '.') == |whole| by {
      assert s[|whole|] == '.';
      assert forall i :: 0 <= i < |whole| ==> s[i] == whole[i];
      FirstIndexAt(s, '.', |whole|);
    }
    assert s[..|whole|] == whole && s[|whole| + 1..] == frac;
    assert Unsigned(s) == s by {
      if |whole| > 0 {
        assert s[0] == whole[0];
      }
    }
  }

  /** The first `c` is at `k` when `s[k]` is `c` and no earlier character is. */
  lemma {:induction false} FirstIndexAt(s: string, c: char, k: nat)
    requires k < |s| && s[k] == c
    requires forall i :: 0 <= i < k ==> s[i] != c
    ensures FirstIndex(s, c) == k
  {
    if k > 0 {
      FirstIndexAt(s[1..], c, k - 1);
    }
  }

  /** A sign is not a digit and not a point: dropping it keeps the digits and the fraction. */
  lemma UnsignedDigits(s: string)
    ensures DigitsOf(s) == DigitsOf(Unsigned(s))
    ensures FractionDigits(s) == FractionDigits(Unsigned(s))
  {
    if |s| > 0 && (s[0] == '-' || s[0] == '+') {
      assert FirstIndex(s, '.') == 1 + FirstIndex(s[1..], '.');
      assert s[FirstIndex(s, '.')..] == s[1..][FirstIndex(s[1..], '.')..];
    }
  }

  /** Plain digits are read as a whole number of euros. */
  lemma ParseDecimalDigits(s: string)
    requires s != "" && AllDigits(s)
    ensures ParseDecimal(s) == Some(Decimal(DigitsValue(s), 0))
  {
    assert FirstIndex(s, '.') == |s|;
    assert s + "" == s;
  }

  /** The index of the first `c` in `s`, or `|s|` when there is none. */
  function FirstIndex(s: string, c: char): (r: nat)
    ensures r <= |s|
    ensures r < |s| ==> s[r] == c
    ensures forall i :: 0 <= i < r ==> s[i] != c
  {
    if s == [] then 0 else if s[0] == c then 0 else 1 + FirstIndex(s[1..], c)
  }

  /** `price__gte=d` on a price in cents: exact, whatever the number of decimals. */
  predicate CentsAtLeast(cents: int, d: Decimal)
  {
    cents * Pow10(d.scale) >= d.units * 100
  }

  /** `price__lte=d` on a price in cents. */
  predicate CentsAtMost(cents: int, d: Decimal)
  {
    cents * Pow10(d.scale) <= d.units * 100
  }

  /** A bound written in whole euros compares against the price in cents as
      100 times that number. */
  lemma WholeEuroBound(cents: int, s: string)
    requires s != "" && AllDigits(s)
    ensures ParseDecimal(s).Some?
    ensures CentsAtLeast(cents, ParseDecimal(s).value) <==> cents >= 100 * DigitsValue(s)
    ensures CentsAtMost(cents, ParseDecimal(s).value) <==> cents <= 100 * DigitsValue(s)
  {
    ParseDecimalDigits(s);
  }
}

/** The IBAN check digits: the screen's digit-by-digit remainder is the server's whole
    number, and which typing errors the check catches (ISO 13616, and the MOD 97-10
    system of ISO 7064). */
module Iban {
  import opened Basics
  import opened Decimals
  import opened SerialNumbers

  predicate IsLetter(c: char) {
    'A' <= c <= 'Z'
  }

  predicate IsAlphanumeric(c: char) {
    IsDigit(c) || IsLetter(c)
  }

  predicate Alphanumeric(s: string) {
    forall i :: 0 <= i < |s| ==> IsAlphanumeric(s[i])
  }

  /** Two letters, two digits, then 11 to 30 letters or digits. */
  predicate Shaped(s: string) {
    && 15 <= |s| <= 34
    && IsLetter(s[0]) && IsLetter(s[1]) && IsDigit(s[2]) && IsDigit(s[3])
    && Alphanumeric(s)
  }

  /** A digit's own value, and 10 to 35 for the letters. No other character passes the
      shape, so what it would count for is immaterial. */
  function CharValue(c: char): (v: nat)
    ensures v < 36
  {
    if IsDigit(c) then DigitValue(c) else if IsLetter(c) then c as int - 55 else 0
  }

  function Width(c: char): nat {
    if IsDigit(c) then 1 else 2
  }

  /** A letter becomes the two digits of its value. */
  function Expand(c: char): string {
    if IsDigit(c) then [c] else Digits(CharValue(c))
  }

  function ExpandAll(s: string): string {
    if s == "" then "" else ExpandAll(s[..|s| - 1]) + Expand(s[|s| - 1])
  }

  /** The first four characters moved to the end. */
  function Rotated(s: string): string
    requires |s| >= 4
  {
    s[4..] + s[..4]
  }

  lemma {:induction false} ExpandedDigits(s: string)
    ensures AllDigits(ExpandAll(s))
  {
    if s != "" {
      ExpandedDigits(s[..|s| - 1]);
    }
  }

  function Number(s: string): nat {
    ExpandedDigits(s);
    ValueOf(ExpandAll(s))
  }

  /** The server's check: the whole number leaves one. */
  predicate Accepted(s: string) {
    Shaped(s) && Number(Rotated(s)) % 97 == 1
  }

  /** `ibanChecksumPasses`: the screen's check, one digit at a time. */
  method ChecksumPasses(iban: string) returns (r: bool)
    requires Shaped(iban)
    ensures r <==> Accepted(iban)
  {
    var digits := ExpandAll(Rotated(iban));
    ExpandedDigits(Rotated(iban));
    var remainder := 0;
    for i := 0 to |digits|
      invariant remainder == ValueOf(digits[..i]) % 97
    {
      assert digits[..i + 1][..i] == digits[..i];
      var n := ValueOf(digits[..i]);
      CarryRemainder(n, DigitValue(digits[i]));
      remainder := (remainder * 10 + DigitValue(digits[i])) % 97;
    }
    assert digits[..|digits|] == digits;
    r := remainder == 1;
  }

  lemma CarryRemainder(n: nat, d: nat)
    ensures (10 * n + d) % 97 == (n % 97 * 10 + d) % 97
  {
    assert 10 * n + d == (n % 97 * 10 + d) + 97 * (10 * (n / 97));
    SameRemainder(n % 97 * 10 + d, 10 * (n / 97));
  }

  lemma SameRemainder(a: int, k: int)
    ensures (a + 97 * k) % 97 == a % 97
  {
  }

  // --------------------------------------------------- a number taken apart

  lemma Regroup(whole: string, a: string, b: string, c: string, bc: string)
    requires whole == a + b + c && bc == b + c
    ensures whole == a + bc
  {
  }

  lemma {:induction false} ExpandConcat(s: string, t: string)
    ensures ExpandAll(s + t) == ExpandAll(s) + ExpandAll(t)
    decreases |t|
  {
    if t == "" {
      assert s + t == s;
    } else {
      var front, c, whole := t[..|t| - 1], t[|t| - 1], s + t;
      ExpandConcat(s, front);
      assert whole[..|whole| - 1] == s + front && whole[|whole| - 1] == c;
      Regroup(ExpandAll(whole), ExpandAll(s), ExpandAll(front), Expand(c), ExpandAll(t));
    }
  }

  lemma TwoDigits(n: nat)
    requires 10 <= n < 36
    ensures |Digits(n)| == 2
  {
    assert |Digits(n / 10)| == 1;
  }

  lemma ExpandOne(c: char)
    requires IsAlphanumeric(c)
    ensures ExpandAll([c]) == Expand(c) && |Expand(c)| == Width(c)
    ensures Number([c]) == CharValue(c) && |ExpandAll([c])| == Width(c)
  {
    assert [c][..0] == "";
    if IsDigit(c) {
      assert [c][..0] == "" && ValueOf("") == 0;
    } else {
      TwoDigits(CharValue(c));
      DigitsWrite(CharValue(c));
    }
  }

  lemma NumberConcat(s: string, t: string)
    ensures Number(s + t) == Number(s) * Pow10(|ExpandAll(t)|) + Number(t)
  {
    ExpandConcat(s, t);
    ExpandedDigits(s);
    ExpandedDigits(t);
    ValueConcat(ExpandAll(s), ExpandAll(t));
  }

  /** What a part is worth for the digits that follow it. */
  function PlaceOf(rest: string): nat {
    Pow10(|ExpandAll(rest)|)
  }

  lemma PartsAdd(s: string, t: string, n: int)
    requires n == Number(s + t)
    ensures n == Number(s) * PlaceOf(t) + Number(t)
  {
    NumberConcat(s, t);
  }

  lemma SamePlace(one: int, two: int, gap: int, place: int, tail: int, u: int, v: int)
    requires gap == one - two && u == one * place + tail && v == two * place + tail
    ensures u - v == place * gap
  {
  }

  lemma SameHead(a: string, m: string, n: string, one: int, two: int)
    requires |ExpandAll(m)| == |ExpandAll(n)| && one == Number(a + m) && two == Number(a + n)
    ensures one - two == Number(m) - Number(n)
  {
    PartsAdd(a, m, one);
    PartsAdd(a, n, two);
    assert PlaceOf(m) == PlaceOf(n);
  }

  /** Two numbers alike around a middle differ by their middles, in their place. */
  lemma MiddleDifference(a: string, m: string, n: string, b: string, gap: int, u: int, v: int)
    requires |ExpandAll(m)| == |ExpandAll(n)| && gap == Number(m) - Number(n)
    requires u == Number(a + m + b) && v == Number(a + n + b)
    ensures u - v == PlaceOf(b) * gap
  {
    var am, an := a + m, a + n;
    SameHead(a, m, n, Number(am), Number(an));
    PartsAdd(am, b, u);
    PartsAdd(an, b, v);
    SamePlace(Number(am), Number(an), gap, PlaceOf(b), Number(b), u, v);
  }

  // --------------------------------------------------------- arithmetic mod 97

  lemma {:induction false} TenCancels(k: nat, m: int)
    requires (Pow10(k) * m) % 97 == 0
    ensures m % 97 == 0
  {
    if k > 0 {
      var x := Pow10(k - 1) * m;
      assert Pow10(k) * m == 10 * x;
      assert x % 97 == 0 by {
        var q := 10 * x / 97;
        assert x == 97 * (68 * q - 7 * x);
      }
      TenCancels(k - 1, m);
    }
  }

  lemma {:induction false} TenCarries(k: nat, m: int)
    requires m % 97 == 0
    ensures (Pow10(k) * m) % 97 == 0
  {
    var q := m / 97;
    assert Pow10(k) * m == 97 * (Pow10(k) * q);
  }

  lemma RemainderDifference(u: int, v: int)
    ensures u % 97 == v % 97 <==> (u - v) % 97 == 0
  {
  }

  lemma PlacedGap(place: nat, gap: int, u: int, v: int)
    requires u - v == Pow10(place) * gap
    ensures u % 97 == v % 97 <==> gap % 97 == 0
  {
    RemainderDifference(u, v);
    if (Pow10(place) * gap) % 97 == 0 {
      TenCancels(place, gap);
    }
    if gap % 97 == 0 {
      TenCarries(place, gap);
    }
  }

  /** Then they leave the same remainder exactly when the middles do. */
  lemma MiddlesDecide(a: string, m: string, n: string, b: string, gap: int, u: int, v: int)
    requires |ExpandAll(m)| == |ExpandAll(n)| && gap == Number(m) - Number(n)
    requires u == Number(a + m + b) && v == Number(a + n + b)
    ensures u % 97 == v % 97 <==> gap % 97 == 0
  {
    MiddleDifference(a, m, n, b, gap, u, v);
    PlacedGap(|ExpandAll(b)|, gap, u, v);
  }

  // -------------------------------------------------------- what is caught

  /** Where a position goes when the number is rotated. */
  function Place(s: string, i: nat): nat
    requires 4 <= |s| && i < |s|
  {
    if i >= 4 then i - 4 else |s| - 4 + i
  }

  lemma RotatedAt(s: string, i: nat)
    requires 4 <= |s| && i < |s|
    ensures |Rotated(s)| == |s| && Rotated(s)[Place(s, i)] == s[i]
  {
  }

  lemma RotatedSet(s: string, i: nat, c: char)
    requires 4 <= |s| && i < |s|
    ensures Rotated(s[i := c]) == Rotated(s)[..Place(s, i)] + [c] + Rotated(s)[Place(s, i) + 1..]
  {
  }

  lemma SmallGap(gap: int)
    requires -97 < gap < 97 && gap != 0
    ensures gap % 97 != 0
  {
  }

  lemma CharactersDiffer(x: char, c: char) returns (gap: int)
    requires IsAlphanumeric(x) && IsAlphanumeric(c) && c != x && (IsDigit(c) <==> IsDigit(x))
    ensures |ExpandAll([x])| == |ExpandAll([c])|
    ensures gap == Number([x]) - Number([c]) && gap % 97 != 0
  {
    ExpandOne(x);
    ExpandOne(c);
    gap := CharValue(x) - CharValue(c);
    SmallGap(gap);
  }

  lemma OneCharacterDecides(a: string, x: char, c: char, b: string, u: int, v: int)
    requires IsAlphanumeric(x) && IsAlphanumeric(c) && c != x && (IsDigit(c) <==> IsDigit(x))
    requires u == Number(a + [x] + b) && v == Number(a + [c] + b)
    ensures u % 97 != v % 97
  {
    var gap := CharactersDiffer(x, c);
    MiddlesDecide(a, [x], [c], b, gap, u, v);
  }

  /** One character mistaken for another of its kind, a digit for a digit or a letter for
      a letter, wherever it stands, is always caught. */
  lemma MistakesAreCaught(s: string, i: nat, c: char, t: string)
    requires Accepted(s) && i < |s| && IsAlphanumeric(c) && c != s[i] && (IsDigit(c) <==> IsDigit(s[i]))
    requires t == s[i := c]
    ensures !Accepted(t)
  {
    var r, p, x := Rotated(s), Place(s, i), s[i];
    RotatedSet(s, i, c);
    RotatedSet(s, i, x);
    assert s[i := x] == s;
    OneCharacterDecides(r[..p], x, c, r[p + 1..], Number(r), Number(Rotated(t)));
  }

  lemma PairNumber(x: char, y: char)
    requires IsAlphanumeric(x) && IsAlphanumeric(y)
    ensures |ExpandAll([x, y])| == Width(x) + Width(y)
    ensures Number([x, y]) == CharValue(x) * (if IsDigit(y) then 10 else 100) + CharValue(y)
  {
    assert [x] + [y] == [x, y];
    ExpandOne(x);
    ExpandOne(y);
    ExpandConcat([x], [y]);
    NumberConcat([x], [y]);
    assert Pow10(1) == 10 && Pow10(2) == 100;
  }

  /** A digit and the letter worth eleven of it: 1 and B, 2 and M, 3 and X. */
  predicate Alike(x: char, y: char)
  {
    || (IsDigit(x) && IsLetter(y) && CharValue(y) == 11 * CharValue(x))
    || (IsLetter(x) && IsDigit(y) && CharValue(x) == 11 * CharValue(y))
  }

  /** What a pair and its swap differ by, in their characters' values. */
  function PairGap(x: char, y: char): int {
    var vx: int, vy: int := CharValue(x), CharValue(y);
    (vx * (if IsDigit(y) then 10 else 100) + vy) - (vy * (if IsDigit(x) then 10 else 100) + vx)
  }

  lemma NineVanishes(k: int)
    requires -97 < k < 97
    ensures (9 * k) % 97 == 0 <==> k == 0
    ensures (99 * k) % 97 == 0 <==> k == 0
  {
  }

  lemma PairGapVanishes(x: char, y: char)
    requires IsAlphanumeric(x) && IsAlphanumeric(y) && x != y
    ensures PairGap(x, y) % 97 == 0 <==> Alike(x, y)
  {
    var vx: int, vy: int := CharValue(x), CharValue(y);
    if IsDigit(x) && IsDigit(y) {
      NineVanishes(vx - vy);
    } else if IsLetter(x) && IsLetter(y) {
      NineVanishes(vx - vy);
    } else if IsDigit(x) {
      NineVanishes(11 * vx - vy);
    } else {
      NineVanishes(vx - 11 * vy);
    }
  }

  lemma SwappedPair(x: char, y: char)
    requires IsAlphanumeric(x) && IsAlphanumeric(y) && x != y
    ensures |ExpandAll([x, y])| == |ExpandAll([y, x])|
    ensures Number([x, y]) - Number([y, x]) == PairGap(x, y)
  {
    PairNumber(x, y);
    PairNumber(y, x);
  }

  function Swapped(s: string, i: nat): string
    requires i + 1 < |s|
  {
    s[i := s[i + 1]][i + 1 := s[i]]
  }

  /** A swap of neighbours that stay neighbours when the number is rotated. */
  lemma NeighboursDecide(s: string, i: nat, t: string)
    requires Shaped(s) && i + 1 < |s| && i != 3 && s[i] != s[i + 1] && t == Swapped(s, i)
    ensures Number(Rotated(s)) % 97 == Number(Rotated(t)) % 97 <==> Alike(s[i], s[i + 1])
  {
    var r, p := Rotated(s), Place(s, i);
    RotatedAt(s, i);
    RotatedAt(s, i + 1);
    assert Place(s, i + 1) == p + 1;
    assert Rotated(t) == r[p := s[i + 1]][p + 1 := s[i]];
    assert r == r[..p] + [s[i], s[i + 1]] + r[p + 2..];
    assert Rotated(t) == r[..p] + [s[i + 1], s[i]] + r[p + 2..];
    SwappedPair(s[i], s[i + 1]);
    PairGapVanishes(s[i], s[i + 1]);
    MiddlesDecide(r[..p], [s[i], s[i + 1]], [s[i + 1], s[i]], r[p + 2..], PairGap(s[i], s[i + 1]), Number(r), Number(Rotated(t)));
  }

  // -------------------------------------------- across the check digits' end

  /** The remainders of the first powers of ten, and of every tenth. */
  const Units: seq<nat> := [1, 10, 3, 30, 9, 90, 27, 76, 81, 34]
  const Decades: seq<nat> := [1, 49, 73, 85, 91, 94, 47]

  lemma {:induction false} PowersMultiply(a: nat, b: nat)
    ensures Pow10(a + b) == Pow10(a) * Pow10(b)
  {
    if b > 0 {
      PowersMultiply(a, b - 1);
      assert Pow10(a + b) == 10 * Pow10(a + (b - 1));
    }
  }

  lemma RemaindersMultiply(a: nat, b: nat)
    ensures (a * b) % 97 == (a % 97) * (b % 97) % 97
  {
    var p, q := a / 97, b / 97;
    var x, y := a % 97, b % 97;
    assert a * b == x * y + 97 * (p * b + x * q) by {
      assert a * b == (97 * p + x) * b == 97 * (p * b) + x * b;
      assert x * b == x * (97 * q + y) == 97 * (x * q) + x * y;
    }
    SameRemainder(x * y, p * b + x * q);
  }

  /** A product's remainder, from the remainders of what it is made of. */
  lemma ProductRemainder(whole: nat, a: nat, b: nat, x: nat, y: nat)
    requires whole == a * b && a % 97 == x && b % 97 == y
    ensures whole % 97 == x * y % 97
  {
    RemaindersMultiply(a, b);
  }

  lemma NextUnit(m: nat)
    requires 1 <= m < 10
    ensures Units[m - 1] * 10 % 97 == Units[m]
  {
    match m
    case 1 =>
    case 2 =>
    case 3 =>
    case 4 =>
    case 5 =>
    case 6 =>
    case 7 =>
    case 8 =>
    case _ =>
  }

  lemma {:induction false} UnitRemainder(m: nat)
    requires m < 10
    ensures Pow10(m) % 97 == Units[m]
  {
    if m > 0 {
      UnitRemainder(m - 1);
      NextUnit(m);
      ProductRemainder(Pow10(m), Pow10(m - 1), 10, Units[m - 1], 10);
    }
  }

  lemma TenthPower()
    ensures Pow10(10) % 97 == 49
  {
    UnitRemainder(9);
    CarryRemainder(Pow10(9), 0);
  }

  lemma NextDecade(n: nat)
    requires 1 <= n < 7
    ensures Decades[n - 1] * 49 % 97 == Decades[n]
  {
    match n
    case 1 =>
    case 2 =>
    case 3 =>
    case 4 =>
    case 5 =>
    case _ =>
  }

  lemma {:induction false} DecadeRemainder(n: nat)
    requires n < 7
    ensures Pow10(10 * n) % 97 == Decades[n]
  {
    if n > 0 {
      DecadeRemainder(n - 1);
      TenthPower();
      PowersMultiply(10 * (n - 1), 10);
      NextDecade(n);
      assert 10 * (n - 1) + 10 == 10 * n;
      ProductRemainder(Pow10(10 * n), Pow10(10 * (n - 1)), Pow10(10), Decades[n - 1], 49);
    }
  }

  lemma OnlyTheFirstIsOne(n: nat, m: nat)
    requires n < 7 && m < 10 && n + m > 0
    ensures Decades[n] * Units[m] % 97 != 1
  {
    match n
    case 0 =>
    case 1 =>
    case 2 =>
    case 3 =>
    case 4 =>
    case 5 =>
    case _ =>
  }

  /** No power of ten from the first to the sixty-ninth leaves one: ten goes round all
      ninety-six remainders before it does. */
  lemma TenGoesRound(k: nat)
    requires 1 <= k < 70
    ensures Pow10(k) % 97 != 1
  {
    var n, m := k / 10, k % 10;
    DecadeRemainder(n);
    UnitRemainder(m);
    PowersMultiply(10 * n, m);
    ProductRemainder(Pow10(k), Pow10(10 * n), Pow10(m), Decades[n], Units[m]);
    OnlyTheFirstIsOne(n, m);
  }

  lemma {:induction false} ExpandedLength(s: string)
    requires Alphanumeric(s)
    ensures |ExpandAll(s)| <= 2 * |s|
  {
    if s != "" {
      ExpandedLength(s[..|s| - 1]);
      ExpandOne(s[|s| - 1]);
    }
  }

  /** A digit in front and a digit behind. */
  lemma EndsNumber(x: char, mid: string, y: char)
    requires IsDigit(x) && IsDigit(y)
    ensures Number([x] + mid + [y]) == CharValue(x) * Pow10(|ExpandAll(mid)| + 1) + 10 * Number(mid) + CharValue(y)
  {
    ExpandOne(x);
    ExpandOne(y);
    NumberConcat([x], mid);
    NumberConcat([x] + mid, [y]);
    assert Pow10(1) == 10;
    TenTimes(CharValue(x), Pow10(|ExpandAll(mid)|), Number(mid));
  }

  lemma TenTimes(v: int, place: int, rest: int)
    ensures (v * place + rest) * 10 == v * (10 * place) + 10 * rest
  {
  }

  lemma InverseCancels(k: int, inverse: int, c: int, m: int)
    requires inverse * k == 97 * c + 1 && (k * m) % 97 == 0
    ensures m % 97 == 0
  {
    var q := k * m / 97;
    assert inverse * (k * m) == (inverse * k) * m;
    assert m == 97 * (inverse * q - c * m);
  }

  /** Ninety-seven divides a product with a digit only by dividing the rest of it. */
  lemma DigitCancels(d: nat, m: int)
    requires 1 <= d <= 9 && (d * m) % 97 == 0
    ensures m % 97 == 0
  {
    match d
    case 1 => InverseCancels(1, 1, 0, m);
    case 2 => InverseCancels(2, 49, 1, m);
    case 3 => InverseCancels(3, 65, 2, m);
    case 4 => InverseCancels(4, 73, 3, m);
    case 5 => InverseCancels(5, 39, 2, m);
    case 6 => InverseCancels(6, 81, 5, m);
    case 7 => InverseCancels(7, 14, 1, m);
    case 8 => InverseCancels(8, 85, 7, m);
    case _ => InverseCancels(9, 54, 5, m);
  }

  /** Two numbers a digit times something apart. */
  lemma DigitApart(x: nat, y: nat, m: int, u: int, v: int)
    requires x <= 9 && y <= 9 && x != y && u - v == (x - y) * m && u % 97 == v % 97
    ensures m % 97 == 0
  {
    RemainderDifference(u, v);
    RemainderDifference(v, u);
    if x > y {
      DigitCancels(x - y, m);
    } else {
      assert v - u == (y - x) * m;
      DigitCancels(y - x, m);
    }
  }

  lemma EndsGap(x: int, y: int, place: int, mid: int)
    ensures (x * place + 10 * mid + y) - (y * place + 10 * mid + x) == (x - y) * (place - 1)
  {
  }

  lemma EndsRemain(x: nat, y: nat, place: int, mid: int, u: int, v: int)
    requires x <= 9 && y <= 9 && x != y && place % 97 != 1
    requires u == x * place + 10 * mid + y && v == y * place + 10 * mid + x
    ensures u % 97 != v % 97
  {
    EndsGap(x, y, place, mid);
    if u % 97 == v % 97 {
      DigitApart(x, y, place - 1, u, v);
      RemainderDifference(place, 1);
    }
  }

  /** Unequal digits at the two ends of a number do not change places unseen. */
  lemma EndsDecide(x: char, mid: string, y: char, u: int, v: int)
    requires IsDigit(x) && IsDigit(y) && x != y && Alphanumeric(mid) && |mid| <= 33
    requires u == Number([x] + mid + [y]) && v == Number([y] + mid + [x])
    ensures u % 97 != v % 97
  {
    var n := |ExpandAll(mid)| + 1;
    EndsNumber(x, mid, y);
    EndsNumber(y, mid, x);
    ExpandedLength(mid);
    TenGoesRound(n);
    EndsRemain(CharValue(x), CharValue(y), Pow10(n), Number(mid), u, v);
  }

  /** The last check digit and the digit after it, swapped. */
  lemma EndOfCheckDigits(s: string, t: string)
    requires Shaped(s) && Shaped(t) && t == Swapped(s, 3) && s[3] != s[4]
    ensures Number(Rotated(s)) % 97 != Number(Rotated(t)) % 97
  {
    var mid := s[5..] + s[..3];
    assert t[3] == s[4] && IsDigit(s[4]);
    assert Rotated(s) == [s[4]] + mid + [s[3]];
    assert Rotated(t) == [s[3]] + mid + [s[4]];
    EndsDecide(s[4], mid, s[3], Number(Rotated(s)), Number(Rotated(t)));
  }

  /** Two unequal neighbours swapped, wherever they stand, pass exactly when they are a
      digit and the letter worth eleven of it. */
  lemma SwapsCaughtIff(s: string, i: nat)
    requires Accepted(s) && i + 1 < |s| && s[i] != s[i + 1] && Shaped(Swapped(s, i))
    ensures Accepted(Swapped(s, i)) <==> Alike(s[i], s[i + 1])
  {
    var t := Swapped(s, i);
    if i == 3 {
      EndOfCheckDigits(s, t);
      assert t[3] == s[4];
    } else {
      NeighboursDecide(s, i, t);
    }
  }

  // ------------------------------------------------------ a swap that passes

  lemma OneMore(s: string, c: char, n: nat)
    requires IsAlphanumeric(c) && Number(s) == n
    ensures Number(s + [c]) == n * (if IsDigit(c) then 10 else 100) + CharValue(c)
  {
    ExpandOne(c);
    NumberConcat(s, [c]);
    assert Pow10(1) == 10 && Pow10(2) == 100;
  }

  lemma {:induction false} DigitsStay(s: string)
    requires AllDigits(s)
    ensures ExpandAll(s) == s
  {
    if s != "" {
      DigitsStay(s[..|s| - 1]);
      assert s == s[..|s| - 1] + [s[|s| - 1]];
    }
  }

  lemma ZerosMore(s: string, k: nat)
    ensures Number(s + Zeros(k)) == Number(s) * Pow10(k)
  {
    NumberConcat(s, Zeros(k));
    DigitsStay(Zeros(k));
    ZerosAreNothing(k);
  }

  lemma NineZeros()
    ensures Zeros(9) == "000000000" && Pow10(9) == 1000000000
  {
    assert Pow10(3) == 1000 && Pow10(6) == 1000000;
    assert Zeros(3) == "000" && Zeros(6) == "000000";
  }

  lemma JustOne()
    ensures Number("" + ['1']) == 1
  {
    OneMore("", '1', 0);
  }

  lemma OneAndB(s: string)
    requires Number(s) == 1
    ensures Number(s + ['B']) == 111
  {
    OneMore(s, 'B', 1);
  }

  lemma OneB()
    ensures Number("1B") == 111
  {
    JustOne();
    OneAndB("" + ['1']);
    assert "" + ['1'] + ['B'] == "1B";
  }

  lemma BodyNumber()
    ensures Number("1B" + Zeros(9)) == 111000000000
  {
    OneB();
    NineZeros();
    ZerosMore("1B", 9);
  }

  lemma FourMore(z: string)
    requires Number(z) == 111000000000
    ensures Number(z + ['G'] + ['B'] + ['6'] + ['7']) == 111000000000161167
  {
    OneMore(z, 'G', 111000000000);
    OneMore(z + ['G'], 'B', 11100000000016);
    OneMore(z + ['G'] + ['B'], '6', 1110000000001611);
    OneMore(z + ['G'] + ['B'] + ['6'], '7', 11100000000016116);
  }

  lemma RotatedOne(z: string)
    requires z == "1B" + Zeros(9)
    ensures Rotated("GB671B000000000") == z + ['G'] + ['B'] + ['6'] + ['7']
  {
    NineZeros();
  }

  lemma NumberOne()
    ensures Number(Rotated("GB671B000000000")) == 111000000000161167
  {
    var z := "1B" + Zeros(9);
    BodyNumber();
    FourMore(z);
    RotatedOne(z);
  }

  lemma ShapedOne()
    ensures Shaped("GB671B000000000")
  {
  }

  lemma AcceptedIs(s: string, n: nat)
    requires Shaped(s) && Number(Rotated(s)) == n && n % 97 == 1
    ensures Accepted(s)
  {
  }

  lemma AcceptedOne()
    ensures Accepted("GB671B000000000")
  {
    ShapedOne();
    NumberOne();
    AcceptedIs("GB671B000000000", 111000000000161167);
  }

  /** An accepted number with a 1 next to a B, and the number with the two swapped, which
      is accepted just as well. */
  lemma SwapPassesUnseen()
    ensures Accepted("GB671B000000000") && Accepted("GB67B1000000000")
    ensures Swapped("GB671B000000000", 4) == "GB67B1000000000"
  {
    AcceptedOne();
    SwapsCaughtIff("GB671B000000000", 4);
    assert Swapped("GB671B000000000", 4) == "GB67B1000000000";
  }

  /** So two unequal digits, or two unequal letters, side by side and swapped, are always
      caught. */
  lemma NeighboursOfAKindAreCaught(s: string, i: nat)
    requires Accepted(s) && i + 1 < |s| && s[i] != s[i + 1] && (IsDigit(s[i]) <==> IsDigit(s[i + 1]))
    ensures !Accepted(Swapped(s, i))
  {
    assert Shaped(Swapped(s, i));
    SwapsCaughtIff(s, i);
  }

  // ------------------------------------------------- the two validators

  function WithoutSpaces(s: string): (r: string)
    ensures forall i :: 0 <= i < |r| ==> !IsSpace(r[i])
  {
    if s == "" then ""
    else if IsSpace(s[|s| - 1]) then WithoutSpaces(s[..|s| - 1])
    else WithoutSpaces(s[..|s| - 1]) + [s[|s| - 1]]
  }

  /** `_normalize_iban`: nothing for a blank, else the cleaned number or a refusal. */
  function NormalizeIban(value: Option<string>): Result<Option<string>> {
    if value.None? || WithoutSpaces(value.value) == "" then Success(None)
    else
      var cleaned := Upper(WithoutSpaces(value.value));
      :- Need(Shaped(cleaned), BadRequest);
      :- Need(Accepted(cleaned), BadRequest);
      Success(Some(cleaned))
  }

  /** `validateIban`, on the screen. */
  method ValidateIban(value: Option<string>) returns (r: Check)
    ensures r.Pass? <==> value.None? || value.value == "" || Accepted(Upper(WithoutSpaces(value.value)))
  {
    if value.None? || value.value == "" {
      return Pass;
    }
    var cleaned := Upper(WithoutSpaces(value.value));
    if !Shaped(cleaned) {
      return Fail(BadRequest);
    }
    var passes := ChecksumPasses(cleaned);
    r := if passes then Pass else Fail(BadRequest);
  }

  lemma {:induction false} NoSpacesKept(s: string)
    requires forall i :: 0 <= i < |s| ==> !IsSpace(s[i])
    ensures WithoutSpaces(s) == s
  {
    if s != "" {
      NoSpacesKept(s[..|s| - 1]);
    }
  }

  lemma CleanedStays(s: string, cleaned: string)
    requires cleaned == Upper(WithoutSpaces(s)) && WithoutSpaces(s) != ""
    ensures cleaned != "" && WithoutSpaces(cleaned) == cleaned && Upper(cleaned) == cleaned
  {
    assert |cleaned| == |WithoutSpaces(s)|;
    NoSpacesKept(cleaned);
    assert Upper(cleaned) == cleaned;
  }

  /** What the server stores is accepted, and stays as it is when stored again. */
  lemma NormalizedStays(value: string, cleaned: string)
    requires NormalizeIban(Some(value)) == Success(Some(cleaned))
    ensures Accepted(cleaned) && NormalizeIban(Some(cleaned)) == Success(Some(cleaned))
  {
    CleanedStays(value, cleaned);
  }

  /** Screen and server accept the same input, except one made of white space alone,
      which only the server takes for no IBAN at all. */
  lemma ScreenAndServerAgreeIff(value: Option<string>)
    ensures (NormalizeIban(value).Success? <==> value.None? || value.value == "" || Accepted(Upper(WithoutSpaces(value.value))))
            <==> !(value.Some? && value.value != "" && WithoutSpaces(value.value) == "")
  {
    if value.Some? {
      assert WithoutSpaces("") == "";
      assert Upper("") == "";
    }
  }
}

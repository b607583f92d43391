/** The view-count text parser of the watch page (`viewCountParser` in
    features/watch/index.ts): a multiplier from the suffix words, the first
    run of digits, dots and commas read as `parseFloat` reads it, and the
    split of a view-count text into its number and its suffix. Numbers are
    exact reals; case folding covers ASCII letters. */
module ViewCount {
  import opened Wrappers
  import opened Digits

  // ----- Characters and substrings -----

  /** A character of the class `[\d.,]`. */
  predicate IsNumberChar(c: char) {
    IsDigit(c) || c == '.' || c == ','
  }

  /** A character of the class `\s` (also what `String.prototype.trim` removes). */
  predicate IsJsSpace(c: char) {
    var n := c as int;
    (9 <= n <= 13) || n == 0x20 || n == 0xA0 || n == 0x1680 || (0x2000 <= n <= 0x200A)
    || n == 0x2028 || n == 0x2029 || n == 0x202F || n == 0x205F || n == 0x3000 || n == 0xFEFF
  }

  function LowerChar(c: char): char {
    if 'A' <= c <= 'Z' then (c as int + 32) as char else c
  }

  /** `toLowerCase`, on ASCII letters: no upper-case letter is left, each one
      becomes its lower-case partner, and every other character stays. */
  function Lower(s: string): (r: string)
    ensures |r| == |s|
    ensures forall i | 0 <= i < |s| :: !('A' <= r[i] <= 'Z')
    ensures forall i | 0 <= i < |s| :: 'A' <= s[i] <= 'Z' ==> r[i] as int - 'a' as int == s[i] as int - 'A' as int
    ensures forall i | 0 <= i < |s| :: !('A' <= s[i] <= 'Z') ==> r[i] == s[i]
  {
    seq(|s|, i requires 0 <= i < |s| => LowerChar(s[i]))
  }

  predicate StartsWith(s: string, t: string) {
    |t| <= |s| && s[..|t|] == t
  }

  /** `s.includes(t)`. */
  predicate Contains(s: string, t: string)
    decreases |s|
  {
    StartsWith(s, t) || (|s| > 0 && Contains(s[1..], t))
  }

  /** `t` occurs in `s` at index `i`. */
  predicate OccursAt(s: string, t: string, i: nat) {
    i + |t| <= |s| && s[i..i + |t|] == t
  }

  /** `includes` means `t` occurs at some index of `s`. */
  lemma {:induction false} ContainsAt(s: string, t: string)
    ensures Contains(s, t) <==> exists i: nat :: OccursAt(s, t, i)
    decreases |s|
  {
    if StartsWith(s, t) {
      assert OccursAt(s, t, 0);
    }
    if |s| > 0 {
      ContainsAt(s[1..], t);
      if Contains(s[1..], t) {
        var i: nat :| OccursAt(s[1..], t, i);
        assert s[i + 1..i + 1 + |t|] == s[1..][i..i + |t|];
        assert OccursAt(s, t, i + 1);
      }
      if exists i: nat :: OccursAt(s, t, i) {
        var i: nat :| OccursAt(s, t, i);
        if i > 0 {
          assert s[1..][i - 1..i - 1 + |t|] == s[i..i + |t|];
          assert OccursAt(s[1..], t, i - 1);
        } else {
          assert StartsWith(s, t);
        }
      }
    } else if exists i: nat :: OccursAt(s, t, i) {
      var i: nat :| OccursAt(s, t, i);
      assert StartsWith(s, t);
    }
  }

  /** Whatever contains "miliar" contains "m". */
  lemma {:induction false} MiliarContainsM(s: string)
    requires Contains(s, "miliar")
    ensures Contains(s, "m")
    decreases |s|
  {
    if StartsWith(s, "miliar") {
      assert s[..1] == s[..6][..1];
    } else {
      MiliarContainsM(s[1..]);
    }
  }

  // ----- The multiplier -----

  /** The multiplier for the lower-cased text: "k"/"rb" before "m"/"jt" before "b"/"miliar". */
  function Multiplier(lower: string): nat {
    if Contains(lower, "k") || Contains(lower, "rb") then 1000
    else if Contains(lower, "m") || Contains(lower, "jt") then 1000000
    else if Contains(lower, "b") || Contains(lower, "miliar") then 1000000000
    else 1
  }

  /** The "miliar" test is never what selects 10^9: "miliar" contains "m", so a
      text with "miliar" gets 1000 or 1 000 000, and 10^9 is chosen exactly when
      "b" is present and no earlier test matched. */
  lemma MiliarNeverBillion(lower: string)
    ensures Contains(lower, "miliar") ==> Multiplier(lower) == 1000 || Multiplier(lower) == 1000000
    ensures Multiplier(lower) == 1000000000 <==>
      !Contains(lower, "k") && !Contains(lower, "rb") && !Contains(lower, "m") && !Contains(lower, "jt") && Contains(lower, "b")
  {
    if Contains(lower, "miliar") {
      MiliarContainsM(lower);
    }
  }

  // ----- The number run -----

  /** The first index at or after `i` holding a `[\d.,]` character. */
  function NextNumberChar(s: string, i: nat): (r: Option<nat>)
    requires i <= |s|
    ensures r.Some? ==> i <= r.value < |s| && IsNumberChar(s[r.value])
    ensures r.Some? ==> forall k | i <= k < r.value :: !IsNumberChar(s[k])
    ensures r.None? ==> forall k | i <= k < |s| :: !IsNumberChar(s[k])
    decreases |s| - i
  {
    if i == |s| then None
    else if IsNumberChar(s[i]) then Some(i)
    else NextNumberChar(s, i + 1)
  }

  /** The end of the run of `[\d.,]` characters that starts at `i`. */
  function NumberRunEnd(s: string, i: nat): (r: nat)
    requires i <= |s|
    ensures i <= r <= |s|
    ensures forall k | i <= k < r :: IsNumberChar(s[k])
    ensures r < |s| ==> !IsNumberChar(s[r])
    decreases |s| - i
  {
    if i == |s| || !IsNumberChar(s[i]) then i else NumberRunEnd(s, i + 1)
  }

  /** The end of the run of digits that starts at `i`. */
  function DigitRunEnd(s: string, i: nat): (r: nat)
    requires i <= |s|
    ensures i <= r <= |s|
    ensures forall k | i <= k < r :: IsDigit(s[k])
    ensures r < |s| ==> !IsDigit(s[r])
    decreases |s| - i
  {
    if i == |s| || !IsDigit(s[i]) then i else DigitRunEnd(s, i + 1)
  }

  /** `s.match(/[\d.,]+/)`: the leftmost longest run of digits, dots and commas. */
  function FirstNumberRun(s: string): (r: Option<string>)
    ensures r.None? <==> forall k | 0 <= k < |s| :: !IsNumberChar(s[k])
    ensures r.Some? ==> exists i, j | 0 <= i < j <= |s| :: (
      && r.value == s[i..j]
      && (forall k | 0 <= k < i :: !IsNumberChar(s[k]))
      && (forall k | i <= k < j :: IsNumberChar(s[k]))
      && (j < |s| ==> !IsNumberChar(s[j])))
  {
    var start := NextNumberChar(s, 0);
    if start.None? then None
    else
      var j := NumberRunEnd(s, start.value);
      Some(s[start.value..j])
  }

  /** `replace(/,/g, "")`. */
  function StripCommas(s: string): (r: string)
    ensures forall c | c in r :: c in s && c != ','
    ensures forall c | c in s && c != ',' :: c in r
    ensures |r| <= |s|
    ensures (forall k | 0 <= k < |s| :: s[k] != ',') ==> r == s
  {
    if s == [] then []
    else if s[0] == ',' then StripCommas(s[1..])
    else [s[0]] + StripCommas(s[1..])
  }

  /** Removing commas works piece by piece, so the kept characters stay in order. */
  lemma {:induction false} StripCommasAppend(a: string, b: string)
    ensures StripCommas(a + b) == StripCommas(a) + StripCommas(b)
    decreases |a|
  {
    if a != [] {
      assert (a + b)[0] == a[0] && (a + b)[1..] == a[1..] + b;
      StripCommasAppend(a[1..], b);
    } else {
      assert a + b == b;
    }
  }

  /** One character: a comma goes, anything else stays. */
  lemma StripCommasChar(c: char)
    ensures StripCommas([c]) == if c == ',' then [] else [c]
  {
    assert [c][1..] == [];
  }


  // ----- parseFloat on a run of digits and dots -----

  /** An exact decimal number: `mantissa / 10^scale`. */
  datatype Decimal = Decimal(mantissa: nat, scale: nat)

  /** `parseFloat` on a string of digits, dots and anything else: the longest
      prefix of the form `digits [. digits]` or `. digits`; `None` is NaN. */
  function ParseFloatPrefix(t: string): (r: Option<Decimal>)
    ensures r.None? <==> !(|t| > 0 && IsDigit(t[0])) && !(|t| > 1 && t[0] == '.' && IsDigit(t[1]))
  {
    var n := DigitRunEnd(t, 0);
    if n < |t| && t[n] == '.' then
      var m := DigitRunEnd(t, n + 1);
      if n == 0 && m == n + 1 then None
      else Some(Decimal(DigitsValue(t[..n] + t[n + 1..m]), m - n - 1))
    else if n == 0 then None
    else Some(Decimal(DigitsValue(t[..n]), 0))
  }

  /** A digit run of length `len` at `i` followed by a non-digit (or the end) is where `RunEnd` stops. */
  lemma DigitRunAt(s: string, i: nat, len: nat)
    requires i + len <= |s|
    requires forall k | i <= k < i + len :: IsDigit(s[k])
    requires i + len < |s| ==> !IsDigit(s[i + len])
    ensures DigitRunEnd(s, i) == i + len
    decreases len
  {
    if len > 0 {
      DigitRunAt(s, i + 1, len - 1);
    }
  }

  /** `parseFloat` on digits, a dot and digits (either run may be empty, not
      both): the mantissa is both digit runs together and the scale is the
      length of the second, so the value is the first run plus the second
      divided by 10 to its length (see `DigitsValueAppend`). */
  lemma ParseFloatAt(t: string, n: nat, m: nat)
    requires n < |t| && t[n] == '.'
    requires DigitRunEnd(t, 0) == n && DigitRunEnd(t, n + 1) == m
    requires n > 0 || m > n + 1
    ensures ParseFloatPrefix(t) == Some(Decimal(DigitsValue(t[..n] + t[n + 1..m]), m - n - 1))
  {
  }

  /** `a.b` followed by the end of the text or by anything that is not a digit
      reads as `a.b`; `b` may be empty, as in "4." */
  lemma DecimalEndsNumber(a: string, b: string, rest: string)
    requires AllDigits(a) && AllDigits(b) && |a| > 0
    requires rest == [] || !IsDigit(rest[0])
    ensures ParseFloatPrefix(a + "." + b + rest) == Some(Decimal(DigitsValue(a + b), |b|))
  {
    var p := a + ".";
    var q := p + b;
    var t := q + rest;
    var n, m := |a|, |q|;
    forall k | 0 <= k < n
      ensures t[k] == a[k] && IsDigit(t[k])
    {
      assert t[k] == q[k] == p[k];
    }
    forall k | n < k < m
      ensures t[k] == b[k - n - 1] && IsDigit(t[k])
    {
      assert t[k] == q[k];
    }
    assert t[n] == '.' by { assert t[n] == q[n] == p[n]; }
    assert m < |t| ==> t[m] == rest[0];
    assert t[..n] == a;
    assert t[n + 1..m] == b;
    DigitRunAt(t, 0, n);
    DigitRunAt(t, n + 1, m - n - 1);
    ParseFloatAt(t, n, m);
  }

  /** A second "." ends the number: `a.b.rest` reads as `a.b`. */
  lemma SecondDotEndsNumber(a: string, b: string, rest: string)
    requires AllDigits(a) && AllDigits(b) && |a| > 0
    ensures ParseFloatPrefix(a + "." + b + "." + rest) == Some(Decimal(DigitsValue(a + b), |b|))
  {
    assert a + "." + b + "." + rest == a + "." + b + ("." + rest);
    DecimalEndsNumber(a, b, "." + rest);
  }

  /** The commonest run, `a.b` with nothing after it, reads as `a.b`. */
  lemma DecimalAtEnd(a: string, b: string)
    requires AllDigits(a) && AllDigits(b) && |a| > 0
    ensures ParseFloatPrefix(a + "." + b) == Some(Decimal(DigitsValue(a + b), |b|))
  {
    assert a + "." + b + [] == a + "." + b;
    DecimalEndsNumber(a, b, []);
  }

  // ----- parse -----

  /** `Math.floor(num * multiplier)` for the decimal `num`. */
  function Scaled(num: Decimal, multiplier: nat): (r: nat)
    ensures r * Pow10(num.scale) <= num.mantissa * multiplier < (r + 1) * Pow10(num.scale)
  {
    Floor(num.mantissa * multiplier, Pow10(num.scale))
  }

  /** `p / d` rounded down. */
  function Floor(p: nat, d: nat): (q: nat)
    requires d >= 1
    ensures q * d <= p < (q + 1) * d
  {
    var q := p / d;
    var r := p % d;
    assert p == q * d + r && 0 <= r < d;
    assert (q + 1) * d == q * d + d;
    q
  }

  /** The result of `viewCountParser.parse`. */
  datatype Parsed = Parsed(count: int, formatted: string)

  /** `viewCountParser.parse`: "" gives count 0 shown as "0"; otherwise the text is
      kept and the count is the floor of the first number run, commas removed and
      read by `parseFloat`, times the multiplier (0 when there is no number). */
  function Parse(s: string): (r: Parsed)
    ensures s == "" ==> r == Parsed(0, "0")
    ensures s != "" ==> r.formatted == s
    ensures r.count >= 0
    ensures FirstNumberRun(s).None? ==> r.count == 0
  {
    if s == "" then Parsed(0, "0")
    else
      var multiplier := Multiplier(Lower(s));
      var run := FirstNumberRun(s);
      if run.None? then Parsed(0, s)
      else
        var num := ParseFloatPrefix(StripCommas(run.value));
        Parsed(if num.None? then 0 else Scaled(num.value, multiplier), s)
  }

  /** The leftmost maximal run of `[\d.,]` characters is the one `match` finds. */
  lemma FirstNumberRunIs(s: string, i: nat, j: nat)
    requires i < j <= |s|
    requires forall k | 0 <= k < i :: !IsNumberChar(s[k])
    requires forall k | i <= k < j :: IsNumberChar(s[k])
    requires j < |s| ==> !IsNumberChar(s[j])
    ensures FirstNumberRun(s) == Some(s[i..j])
  {
    var start := NextNumberChar(s, 0);
    assert start == Some(i) by {
      assert IsNumberChar(s[i]);
    }
    assert NumberRunEnd(s, i) == j;
  }

  /** The count of a text whose first number run is `s[i..j]`: the floor of that
      run, commas removed and read by `parseFloat`, times the multiplier; 0 when
      `parseFloat` gives NaN. */
  lemma ParseCount(s: string, i: nat, j: nat)
    requires i < j <= |s|
    requires forall k | 0 <= k < i :: !IsNumberChar(s[k])
    requires forall k | i <= k < j :: IsNumberChar(s[k])
    requires j < |s| ==> !IsNumberChar(s[j])
    ensures var num := ParseFloatPrefix(StripCommas(s[i..j]));
      var c := Parse(s).count;
      && (num.None? ==> c == 0)
      && (num.Some? ==> c * Pow10(num.value.scale) <= num.value.mantissa * Multiplier(Lower(s)) < c * Pow10(num.value.scale) + Pow10(num.value.scale))
  {
    CountOfRun(s, i, j);
    var num := ParseFloatPrefix(StripCommas(s[i..j]));
    if num.Some? {
      ScaledBounds(num.value, Multiplier(Lower(s)), Parse(s).count);
    }
  }

  /** `Scaled`'s floor bounds for a count already known to equal it. */
  lemma ScaledBounds(num: Decimal, multiplier: nat, r: nat)
    requires r == Scaled(num, multiplier)
    ensures r * Pow10(num.scale) <= num.mantissa * multiplier < r * Pow10(num.scale) + Pow10(num.scale)
  {
    assert (r + 1) * Pow10(num.scale) == r * Pow10(num.scale) + Pow10(num.scale);
  }

  /** `Parse(s).count` once the first number run is known to be `s[i..j]`. */
  lemma CountOfRun(s: string, i: nat, j: nat)
    requires i < j <= |s|
    requires forall k | 0 <= k < i :: !IsNumberChar(s[k])
    requires forall k | i <= k < j :: IsNumberChar(s[k])
    requires j < |s| ==> !IsNumberChar(s[j])
    ensures var num := ParseFloatPrefix(StripCommas(s[i..j]));
      Parse(s).count == if num.None? then 0 else Scaled(num.value, Multiplier(Lower(s)))
  {
    FirstNumberRunIs(s, i, j);
  }

  /** A text without any digit counts 0 views: its number run, if any, is only
      dots and commas, which `parseFloat` reads as NaN. */
  lemma NoDigitNoCount(s: string)
    requires forall k | 0 <= k < |s| :: !IsDigit(s[k])
    ensures Parse(s).count == 0
  {
    var run := FirstNumberRun(s);
    if s != "" && run.Some? {
      var t := StripCommas(run.value);
      forall c | c in t
        ensures !IsDigit(c)
      {
        var i, j :| 0 <= i < j <= |s| && run.value == s[i..j];
        assert c in s;
      }
      if |t| > 0 {
        assert t[0] in t;
      }
      if |t| > 1 {
        assert t[1] in t;
      }
    }
  }

  // ----- extractSuffix -----

  /** The result of `viewCountParser.extractSuffix`. */
  datatype Split = Split(number: int, suffix: string, divisor: nat, decimalPlaces: nat)

  function TrimStart(s: string): (r: string)
    ensures |r| <= |s| && r == s[|s| - |r|..]
    ensures forall k | 0 <= k < |s| - |r| :: IsJsSpace(s[k])
    ensures |r| > 0 ==> !IsJsSpace(r[0])
  {
    if s == [] || !IsJsSpace(s[0]) then s else TrimStart(s[1..])
  }

  function TrimEnd(s: string): (r: string)
    ensures |r| <= |s| && r == s[..|r|]
    ensures forall k | |r| <= k < |s| :: IsJsSpace(s[k])
    ensures |r| > 0 ==> !IsJsSpace(r[|r| - 1])
  {
    if s == [] || !IsJsSpace(s[|s| - 1]) then s else TrimEnd(s[..|s| - 1])
  }

  /** `trim()`: a slice of `s` that neither starts nor ends with white space,
      with only white space cut off on either side. */
  function Trim(s: string): (r: string)
    ensures exists i, j | 0 <= i <= j <= |s| :: (
      && r == s[i..j]
      && (forall k | 0 <= k < i :: IsJsSpace(s[k]))
      && (forall k | j <= k < |s| :: IsJsSpace(s[k])))
    ensures |r| > 0 ==> !IsJsSpace(r[0]) && !IsJsSpace(r[|r| - 1])
  {
    var a := TrimStart(s);
    var b := TrimEnd(a);
    assert b == s[|s| - |a|..|s| - |a| + |b|];
    b
  }

  /** The end of the `^[\d.,\s]+` match when it has reached `i` (0 when there is none). */
  function NumberPartEnd(s: string, i: nat): (n: nat)
    requires i <= |s|
    ensures i <= n <= |s|
    ensures forall k | i <= k < n :: IsNumberChar(s[k]) || IsJsSpace(s[k])
    ensures n < |s| ==> !IsNumberChar(s[n]) && !IsJsSpace(s[n])
    decreases |s| - i
  {
    if i == |s| || !(IsNumberChar(s[i]) || IsJsSpace(s[i])) then i else NumberPartEnd(s, i + 1)
  }

  /** The suffix shown after the number: empty, or one space before the
      trimmed text, which neither starts nor ends with white space. */
  function SuffixText(afterNumber: string): (suffix: string)
    ensures suffix == "" <==> Trim(afterNumber) == ""
    ensures suffix != "" ==> suffix[0] == ' ' && suffix[1..] == Trim(afterNumber)
    ensures suffix != "" ==> |suffix| >= 2 && !IsJsSpace(suffix[1]) && !IsJsSpace(suffix[|suffix| - 1])
  {
    var t := Trim(afterNumber);
    if t != "" then " " + t else ""
  }

  /** `viewCountParser.extractSuffix`: the number `parse` counts, the divisor and
      decimal places of the same multiplier rule, and the text after the leading
      `[\d.,\s]` run as suffix. */
  function ExtractSuffix(s: string): (r: Split)
    ensures s == "" ==> r == Split(0, "", 1, 0)
    ensures s != "" ==> r.number == Parse(s).count && r.divisor == Multiplier(Lower(s))
    ensures r.decimalPlaces == (if r.divisor == 1 then 0 else 1)
    ensures s != "" ==> r.suffix == SuffixText(s[NumberPartEnd(s, 0)..])
  {
    if s == "" then Split(0, "", 1, 0)
    else
      var divisor := Multiplier(Lower(s));
      var places := if divisor == 1 then 0 else 1;
      Split(Parse(s).count, SuffixText(s[NumberPartEnd(s, 0)..]), divisor, places)
  }

  // ----- Worked examples -----

  /** Every character of a contained string occurs in the containing one. */
  lemma {:induction false} ContainedCharsOccur(s: string, t: string, c: char)
    requires Contains(s, t) && c in t
    ensures c in s
    decreases |s|
  {
    if StartsWith(s, t) {
      assert c in s[..|t|];
    } else {
      ContainedCharsOccur(s[1..], t, c);
      assert s == [s[0]] + s[1..];
    }
  }

  lemma Absent(s: string, t: string, c: char)
    requires c in t && c !in s
    ensures !Contains(s, t)
  {
    if Contains(s, t) {
      ContainedCharsOccur(s, t, c);
    }
  }

  lemma Present(s: string, t: string, i: nat)
    requires OccursAt(s, t, i)
    ensures Contains(s, t)
  {
    ContainsAt(s, t);
  }

  /** A text without upper-case ASCII letters is its own lower case. */
  lemma LowerKeepsLower(s: string)
    requires forall k | 0 <= k < |s| :: !('A' <= s[k] <= 'Z')
    ensures Lower(s) == s
  {
    assert forall k | 0 <= k < |s| :: Lower(s)[k] == s[k];
  }

  /** `parseFloat` reads a plain digit string as that integer. */
  lemma ParseFloatDigits(a: string)
    requires AllDigits(a) && |a| > 0
    ensures ParseFloatPrefix(a) == Some(Decimal(DigitsValue(a), 0))
  {
    DigitRunAt(a, 0, |a|);
    assert a[..|a|] == a;
  }

  /** `parseFloat(".d")` reads a leading dot as "0.": the digits over 10 to their count. */
  lemma ParseLeadingDot(b: string)
    requires AllDigits(b) && |b| > 0
    ensures ParseFloatPrefix("." + b) == Some(Decimal(DigitsValue(b), |b|))
  {
    var t := "." + b;
    forall k | 1 <= k < 1 + |b|
      ensures IsDigit(t[k])
    {
      assert t[k] == b[k - 1];
    }
    DigitRunAt(t, 0, 0);
    DigitRunAt(t, 1, |b|);
    assert t[1..] == b;
    assert t[..0] + t[1..|b| + 1] == [] + b == b;
    ParseFloatAt(t, 0, |b| + 1);
  }

  lemma MiliarMultiplier()
    ensures Multiplier("3 miliar") == 1000000
  {
    var s := "3 miliar";
    Absent(s, "k", 'k');
    Absent(s, "rb", 'b');
    Present(s, "m", 2);
  }

  lemma MiliarNumber(s: string)
    requires s == "3 miliar"
    ensures Lower(s) == s
    ensures ParseFloatPrefix(StripCommas(s[0..1])) == Some(Decimal(3, 0))
  {
    LowerKeepsLower(s);
    assert s[0..1] == "3";
    assert StripCommas("3") == "3";
    ParseFloatDigits("3");
    assert "3"[..0] == "";
  }

  /** An Indonesian "miliar" (10^9) count is read with the "m" multiplier. */
  lemma ParseMiliar()
    ensures Parse("3 miliar").count == 3000000
  {
    ParseMiliarOf("3 miliar");
  }

  lemma ParseMiliarOf(s: string)
    requires s == "3 miliar"
    ensures Parse(s).count == 3000000
  {
    MiliarNumber(s);
    MiliarMultiplier();
    ParseCount(s, 0, 1);
    var c := Parse(s).count;
    assert c * Pow10(0) <= 3 * 1000000 < (c + 1) * Pow10(0);
  }

  /** An exact decimal times a multiplier: "4.1M views" counts 4 100 000, where
      `parseFloat` and doubles give 4 099 999. */
  lemma ParseMillions()
    ensures Parse("4.1M views").count == 4100000
  {
    ParseMillionsOf("4.1M views");
  }

  lemma ParseMillionsOf(s: string)
    requires s == "4.1M views"
    ensures Parse(s).count == 4100000
  {
    MillionsNumber(s);
    MillionsMultiplier("4.1m views");
    MillionsRun(s);
    CountOfRun(s, 0, 3);
    ScaledMillions();
  }

  lemma ScaledMillions()
    ensures Scaled(Decimal(41, 1), 1000000) == 4100000
  {
    assert Pow10(1) == 10;
  }

  lemma MillionsRun(s: string)
    requires s == "4.1M views"
    ensures forall k | 0 <= k < 3 :: IsNumberChar(s[k])
    ensures !IsNumberChar(s[3])
  { }


  lemma MillionsNumber(s: string)
    requires s == "4.1M views"
    ensures Lower(s) == "4.1m views"
    ensures ParseFloatPrefix(StripCommas(s[0..3])) == Some(Decimal(41, 1))
  {
    var l := Lower(s);
    assert l[3] as int == 'm' as int;
    assert l == "4.1m views";
    assert s[0..3] == "4" + "." + "1";
    assert StripCommas(s[0..3]) == s[0..3];
    DecimalAtEnd("4", "1");
    assert "41"[..1] == "4" && "4"[..0] == "";
  }

  lemma MillionsMultiplier(l: string)
    requires l == "4.1m views"
    ensures Multiplier(l) == 1000000
  {
    Absent(l, "k", 'k');
    Absent(l, "rb", 'r');
    Present(l, "m", 3);
  }

  lemma RbMultiplier()
    ensures Multiplier("1,2 rb") == 1000
  {
    Present("1,2 rb", "rb", 4);
  }

  lemma DecimalCommaNumber(s: string)
    requires s == "1,2 rb"
    ensures Lower(s) == s
    ensures ParseFloatPrefix(StripCommas(s[0..3])) == Some(Decimal(12, 0))
  {
    LowerKeepsLower(s);
    assert s[0..3] == "1,2";
    assert StripCommas("1,2") == "12";
    ParseFloatDigits("12");
    assert "12"[..1] == "1" && "1"[..0] == "";
  }

  /** An Indonesian decimal comma is removed like a thousands separator:
      "1,2 rb" counts 12 000. */
  lemma ParseDecimalComma()
    ensures Parse("1,2 rb").count == 12000
  {
    ParseDecimalCommaOf("1,2 rb");
  }

  lemma ParseDecimalCommaOf(s: string)
    requires s == "1,2 rb"
    ensures Parse(s).count == 12000
  {
    DecimalCommaNumber(s);
    RbMultiplier();
    ParseCount(s, 0, 3);
    var c := Parse(s).count;
    assert c * Pow10(0) <= 12 * 1000 < (c + 1) * Pow10(0);
  }
}

/**
 * The string and number helpers behind the contract form (App.tsx):
 * stripping non-digits, reading a digit string as a natural, rendering a
 * natural in the `id-ID` style (groups of three separated by '.'), the
 * price keystroke formatter, the save-time normalisations and the
 * 2.560.000 threshold rule.
 */
module PriceFormat {

  predicate IsDigit(c: char) {
    '0' <= c <= '9'
  }

  predicate AllDigits(s: string) {
    forall i :: 0 <= i < |s| ==> IsDigit(s[i])
  }

  predicate NoDigits(s: string) {
    forall i :: 0 <= i < |s| ==> !IsDigit(s[i])
  }

  /** JavaScript's `s.startsWith(p)`. */
  predicate StartsWith(s: string, p: string) {
    |p| <= |s| && s[..|p|] == p
  }

  // ---------------------------------------------------------------------
  // Digits
  // ---------------------------------------------------------------------

  /** `s.replace(/\D/g, '')`: the ASCII digits of `s`, in order. */
  function StripNonDigits(s: string): (r: string)
    ensures AllDigits(r)
    ensures |r| <= |s|
    ensures AllDigits(s) ==> r == s
    ensures NoDigits(s) ==> r == []
  {
    if s == [] then []
    else (if IsDigit(s[0]) then [s[0]] else []) + StripNonDigits(s[1..])
  }

  lemma {:induction false} StripAppend(a: string, b: string)
    ensures StripNonDigits(a + b) == StripNonDigits(a) + StripNonDigits(b)
  {
    if a == [] {
      assert a + b == b;
    } else {
      var head := if IsDigit(a[0]) then [a[0]] else [];
      assert (a + b)[0] == a[0];
      assert (a + b)[1..] == a[1..] + b;
      assert StripNonDigits(a + b) == head + StripNonDigits(a[1..] + b);
      StripAppend(a[1..], b);
      assert head + (StripNonDigits(a[1..]) + StripNonDigits(b))
          == (head + StripNonDigits(a[1..])) + StripNonDigits(b);
    }
  }

  function DigitValue(c: char): nat
    requires IsDigit(c)
  {
    c as int - '0' as int
  }

  function DigitChar(k: nat): (c: char)
    requires k < 10
    ensures IsDigit(c) && DigitValue(c) == k
  {
    ('0' as int + k) as char
  }

  /** The decimal value of a digit string; the empty string reads as 0. */
  function ParseDigits(d: string): nat
    requires AllDigits(d)
  {
    if d == [] then 0 else 10 * ParseDigits(d[..|d| - 1]) + DigitValue(d[|d| - 1])
  }

  /** The canonical decimal spelling of `n`: what `Number(raw)` followed by printing gives. */
  function NatToDigits(n: nat): (d: string)
    ensures d != [] && AllDigits(d)
    ensures ParseDigits(d) == n
    ensures |d| > 1 ==> d[0] != '0'
    decreases n
  {
    if n < 10 then [DigitChar(n)]
    else
      var front := NatToDigits(n / 10);
      var d := front + [DigitChar(n % 10)];
      assert d[..|d| - 1] == front;
      d
  }

  /** `parseInt(price.replace(/\D/g, ''), 10) || 0` (App.tsx:416). */
  function NumericPrice(price: string): (n: nat)
    ensures StripNonDigits(price) == [] ==> n == 0
  {
    ParseDigits(StripNonDigits(price))
  }

  lemma NumericPriceOfDigits(d: string)
    requires AllDigits(d)
    ensures NumericPrice(d) == ParseDigits(d)
  {
  }

  // ---------------------------------------------------------------------
  // Grouping in threes with '.', as the id-ID locale renders integers
  // ---------------------------------------------------------------------

  function GroupThousands(d: string): string
    decreases |d|
  {
    if |d| <= 3 then d else GroupThousands(d[..|d| - 3]) + "." + d[|d| - 3..]
  }

  /**
   * A well-formed id-ID integer rendering: every non-separator is a digit,
   * and a '.' stands exactly at every fourth position counted from the
   * right end, so every group but the first has three digits and the first
   * has one to three.
   */
  predicate GroupedInThrees(r: string) {
    |r| % 4 != 0 &&
    (forall i :: 0 <= i < |r| ==> (r[i] == '.' <==> (|r| - i) % 4 == 0)) &&
    (forall i :: 0 <= i < |r| && r[i] != '.' ==> IsDigit(r[i]))
  }

  /** Appending a separator and a full group keeps a rendering well formed. */
  lemma GroupedAppend(g: string, t: string)
    requires GroupedInThrees(g)
    requires |t| == 3 && AllDigits(t)
    ensures GroupedInThrees(g + "." + t)
  {
    var r := g + "." + t;
    assert |r| == |g| + 4;
    forall i | 0 <= i < |r|
      ensures r[i] == '.' <==> (|r| - i) % 4 == 0
      ensures r[i] != '.' ==> IsDigit(r[i])
    {
      if i < |g| {
        assert r[i] == g[i];
        assert (|r| - i) % 4 == (|g| - i) % 4;
      } else if i > |g| {
        assert r[i] == t[i - |g| - 1];
      }
    }
  }

  lemma {:induction false} GroupThousandsGrouped(d: string)
    requires d != [] && AllDigits(d)
    ensures GroupedInThrees(GroupThousands(d))
    decreases |d|
  {
    if |d| > 3 {
      var p, t := d[..|d| - 3], d[|d| - 3..];
      assert AllDigits(p) && AllDigits(t);
      GroupThousandsGrouped(p);
      GroupedAppend(GroupThousands(p), t);
    }
  }

  /** Stripping a rendering drops its separator and keeps the digits on both sides. */
  lemma StripSeparated(g: string, sep: string, t: string)
    requires NoDigits(sep) && AllDigits(t)
    ensures StripNonDigits(g + sep + t) == StripNonDigits(g) + t
  {
    calc {
      StripNonDigits(g + sep + t);
      { assert g + sep + t == g + (sep + t); }
      StripNonDigits(g + (sep + t));
      { StripAppend(g, sep + t); }
      StripNonDigits(g) + StripNonDigits(sep + t);
      { StripAppend(sep, t); }
      StripNonDigits(g) + (StripNonDigits(sep) + StripNonDigits(t));
      StripNonDigits(g) + t;
    }
  }

  lemma {:induction false} GroupThousandsStrip(d: string)
    requires AllDigits(d)
    ensures StripNonDigits(GroupThousands(d)) == d
    decreases |d|
  {
    if |d| > 3 {
      var p, t := d[..|d| - 3], d[|d| - 3..];
      assert d == p + t;
      assert AllDigits(p) && AllDigits(t);
      GroupThousandsStrip(p);
      assert !IsDigit("."[0]);
      StripSeparated(GroupThousands(p), ".", t);
    }
  }

  lemma GroupThousandsShape(d: string)
    requires d != [] && AllDigits(d)
    ensures GroupedInThrees(GroupThousands(d))
    ensures StripNonDigits(GroupThousands(d)) == d
  {
    GroupThousandsGrouped(d);
    GroupThousandsStrip(d);
  }

  // ---------------------------------------------------------------------
  // The price field
  // ---------------------------------------------------------------------

  const RpPrefix: string := "Rp "

  /**
   * `handlePriceChange` (App.tsx:167-181): the value stored for a raw input
   * `value`. No digits gives ""; otherwise "Rp " and the number's grouped
   * rendering.
   */
  function FormatPriceInput(value: string): string {
    var raw := StripNonDigits(value);
    if raw == [] then "" else RpPrefix + GroupThousands(NatToDigits(ParseDigits(raw)))
  }

  /**
   * What the keystroke formatter promises: empty exactly when the input has
   * no digits, otherwise "Rp " followed by the number without leading zeros
   * grouped in threes; and the number read back from the formatted text is
   * the number read from the input, the one the threshold rule compares.
   */
  lemma FormatPriceInputSpec(value: string)
    ensures var r := FormatPriceInput(value);
      (r == "" <==> StripNonDigits(value) == []) &&
      (r != "" ==>
        StartsWith(r, RpPrefix) &&
        GroupedInThrees(r[|RpPrefix|..]) &&
        StripNonDigits(r[|RpPrefix|..]) == NatToDigits(NumericPrice(value))) &&
      NumericPrice(r) == NumericPrice(value)
  {
    var raw := StripNonDigits(value);
    var r := FormatPriceInput(value);
    if raw != [] {
      var d := NatToDigits(ParseDigits(raw));
      var g := GroupThousands(d);
      GroupThousandsShape(d);
      assert r == RpPrefix + g;
      assert r[|RpPrefix|..] == g;
      StripAppend(RpPrefix, g);
      assert StripNonDigits(RpPrefix) == [];
      assert StripNonDigits(r) == d;
    }
  }

  /** Re-running the formatter on its own output changes nothing. */
  lemma FormatPriceInputIdempotent(value: string)
    ensures FormatPriceInput(FormatPriceInput(value)) == FormatPriceInput(value)
  {
    var r := FormatPriceInput(value);
    FormatPriceInputSpec(value);
    if r != "" {
      var g := GroupThousands(NatToDigits(NumericPrice(value)));
      assert r == RpPrefix + g;
      StripAppend(RpPrefix, g);
      assert StripNonDigits(RpPrefix) == [];
      assert StripNonDigits(r) == NatToDigits(NumericPrice(value));
    }
  }

  // ---------------------------------------------------------------------
  // Save-time normalisation (App.tsx:427-429)
  // ---------------------------------------------------------------------

  /** `price.startsWith('Rp') ? price : `Rp ${price}``. */
  function NormalizePrice(price: string): (r: string)
    ensures StartsWith(r, "Rp")
    ensures StartsWith(price, "Rp") ==> r == price
    ensures !StartsWith(price, "Rp") ==> r == RpPrefix + price
  {
    if StartsWith(price, "Rp") then price else RpPrefix + price
  }

  /** The normalised price carries the same number as the submitted one. */
  lemma NormalizePriceKeepsValue(price: string)
    ensures NumericPrice(NormalizePrice(price)) == NumericPrice(price)
    ensures NormalizePrice(NormalizePrice(price)) == NormalizePrice(price)
  {
    if !StartsWith(price, "Rp") {
      assert NormalizePrice(price) == RpPrefix + price;
      StripAppend(RpPrefix, price);
      assert StripNonDigits(RpPrefix) == [];
      assert StripNonDigits(RpPrefix + price) == StripNonDigits(price);
    }
  }

  /** `benefit.includes('%') ? benefit : `${benefit}%``. */
  function NormalizeBenefit(benefit: string): (r: string)
    ensures '%' in r
    ensures '%' in benefit ==> r == benefit
    ensures '%' !in benefit ==> r == benefit + "%"
  {
    if '%' in benefit then benefit else benefit + "%"
  }

  // ---------------------------------------------------------------------
  // The threshold rule (App.tsx:416-421)
  // ---------------------------------------------------------------------

  const Threshold: nat := 2560000
  const DefaultAgendaDescription: string := "Satu paket satu penarikan"
  const AlternateAgendaDescription: string := "Tiga paket Tiga pekerjaan"

  /** The description step "3" receives for a contract of `numericPrice`. */
  function AgendaDescription(numericPrice: nat): (r: string)
    ensures r == AlternateAgendaDescription <==> numericPrice >= Threshold
    ensures r == DefaultAgendaDescription <==> numericPrice < Threshold
  {
    if numericPrice >= Threshold then AlternateAgendaDescription else DefaultAgendaDescription
  }

  lemma ParseDigitsSnoc(d: string, c: char)
    requires AllDigits(d) && IsDigit(c)
    ensures AllDigits(d + [c])
    ensures ParseDigits(d + [c]) == 10 * ParseDigits(d) + DigitValue(c)
  {
    assert (d + [c])[..|d|] == d;
  }

  lemma ParsesTo2560000()
    ensures AllDigits("2560000") && ParseDigits("2560000") == 2560000
  {
    ParseDigitsSnoc("", '2');
    assert "" + ['2'] == "2";
    ParseDigitsSnoc("2", '5');
    assert "2" + ['5'] == "25";
    ParseDigitsSnoc("25", '6');
    assert "25" + ['6'] == "256";
    ParseDigitsSnoc("256", '0');
    assert "256" + ['0'] == "2560";
    ParseDigitsSnoc("2560", '0');
    assert "2560" + ['0'] == "25600";
    ParseDigitsSnoc("25600", '0');
    assert "25600" + ['0'] == "256000";
    ParseDigitsSnoc("256000", '0');
    assert "256000" + ['0'] == "2560000";
  }

  lemma ParsesTo2559999()
    ensures AllDigits("2559999") && ParseDigits("2559999") == 2559999
  {
    ParseDigitsSnoc("", '2');
    assert "" + ['2'] == "2";
    ParseDigitsSnoc("2", '5');
    assert "2" + ['5'] == "25";
    ParseDigitsSnoc("25", '5');
    assert "25" + ['5'] == "255";
    ParseDigitsSnoc("255", '9');
    assert "255" + ['9'] == "2559";
    ParseDigitsSnoc("2559", '9');
    assert "2559" + ['9'] == "25599";
    ParseDigitsSnoc("25599", '9');
    assert "25599" + ['9'] == "255999";
    ParseDigitsSnoc("255999", '9');
    assert "255999" + ['9'] == "2559999";
  }

  /**
   * The two sides of the boundary: typing 2559999 keeps the default text,
   * typing 2560000 selects the alternate one (the formatter does not change
   * the number, by FormatPriceInputSpec).
   */
  lemma ThresholdBoundary()
    ensures AgendaDescription(NumericPrice("2559999")) == DefaultAgendaDescription
    ensures AgendaDescription(NumericPrice("2560000")) == AlternateAgendaDescription
  {
    ParsesTo2559999();
    ParsesTo2560000();
    NumericPriceOfDigits("2559999");
    NumericPriceOfDigits("2560000");
  }

  lemma ParsesTo100000()
    ensures AllDigits("100000") && ParseDigits("100000") == 100000
  {
    ParseDigitsSnoc("", '1');
    assert "" + ['1'] == "1";
    ParseDigitsSnoc("1", '0');
    assert "1" + ['0'] == "10";
    ParseDigitsSnoc("10", '0');
    assert "10" + ['0'] == "100";
    ParseDigitsSnoc("100", '0');
    assert "100" + ['0'] == "1000";
    ParseDigitsSnoc("1000", '0');
    assert "1000" + ['0'] == "10000";
    ParseDigitsSnoc("10000", '0');
    assert "10000" + ['0'] == "100000";
  }

  lemma SpellsAs100000()
    ensures NatToDigits(100000) == "100000"
  {
    assert NatToDigits(1) == "1";
    assert NatToDigits(10) == NatToDigits(1) + ['0'] == "10";
    assert NatToDigits(100) == NatToDigits(10) + ['0'] == "100";
    assert NatToDigits(1000) == NatToDigits(100) + ['0'] == "1000";
    assert NatToDigits(10000) == NatToDigits(1000) + ['0'] == "10000";
    assert NatToDigits(100000) == NatToDigits(10000) + ['0'] == "100000";
  }

  lemma GroupsAs100000()
    ensures GroupThousands("100000") == "100.000"
  {
    var d := "100000";
    assert d[..3] == "100" && d[3..] == "000";
    assert GroupThousands("100") == "100";
    assert GroupThousands(d) == "100" + "." + "000";
  }

  lemma FormatsAs100000(typed: string)
    requires typed == "100000"
    ensures FormatPriceInput(typed) == "Rp 100.000"
  {
    ParsesTo100000();
    assert StripNonDigits(typed) == typed;
    SpellsAs100000();
    GroupsAs100000();
  }

  /** Typing "100000" into the price field shows "Rp 100.000", below the threshold. */
  lemma PriceKeystrokeExample(typed: string)
    requires typed == "100000"
    ensures FormatPriceInput(typed) == "Rp 100.000"
    ensures AgendaDescription(NumericPrice(FormatPriceInput(typed))) == DefaultAgendaDescription
  {
    ParsesTo100000();
    NumericPriceOfDigits(typed);
    FormatPriceInputSpec(typed);
    assert NumericPrice(FormatPriceInput(typed)) == 100000;
    FormatsAs100000(typed);
  }
}

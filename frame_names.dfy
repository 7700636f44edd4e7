/**
 * Naming of the staged frame files.
 *
 * A session derives one template `<base>-%05d.png` from a unique temporary
 * path and formats it with the frame index to name each staged PNG. The
 * cleanup of a session deletes the files by recomputing these names, so it
 * only works because distinct indices give distinct names: that is the
 * round trip ParseFramePath(FramePath(i)) == Some(i) proved here.
 */
module FrameNames {
  import opened Optional

  /** True when every character of s is a decimal digit. */
  predicate IsDigits(s: string) {
    forall k :: 0 <= k < |s| ==> '0' <= s[k] <= '9'
  }

  /** True when every character of s is the digit zero. */
  predicate AllZeros(s: string) {
    forall k :: 0 <= k < |s| ==> s[k] == '0'
  }

  function DigitChar(d: nat): (c: char)
    requires d < 10
    ensures '0' <= c <= '9' && c as int - '0' as int == d
  {
    (d + '0' as int) as char
  }

  /** The number a digit string denotes, most significant digit first. */
  function DecimalValue(s: string): nat
    requires IsDigits(s)
    decreases |s|
  {
    if s == [] then 0
    else 10 * DecimalValue(s[..|s| - 1]) + (s[|s| - 1] as int - '0' as int)
  }

  /** Java's decimal rendering of a non-negative int (`Integer.toString`, `%d`): the digits of n without leading zeros. */
  function Decimal(n: nat): (s: string)
    ensures |s| >= 1 && IsDigits(s)
    ensures DecimalValue(s) == n
    ensures |s| > 1 ==> s[0] != '0'
    decreases n
  {
    if n < 10 then [DigitChar(n)]
    else
      var front := Decimal(n / 10);
      var s := front + [DigitChar(n % 10)];
      assert s[..|s| - 1] == front;
      s
  }

  /** A string of zeros denotes zero. */
  lemma {:induction false} ZerosValue(z: string)
    requires AllZeros(z)
    ensures IsDigits(z) && DecimalValue(z) == 0
    decreases |z|
  {
    if z != [] {
      ZerosValue(z[..|z| - 1]);
    }
  }

  /** Leading zeros do not change the number a digit string denotes. */
  lemma {:induction false} LeadingZerosValue(z: string, s: string)
    requires AllZeros(z) && IsDigits(s)
    ensures IsDigits(z + s) && DecimalValue(z + s) == DecimalValue(s)
    decreases |s|
  {
    if s == [] {
      assert z + s == z;
      ZerosValue(z);
    } else {
      var t := z + s;
      assert t[..|t| - 1] == z + s[..|s| - 1];
      LeadingZerosValue(z, s[..|s| - 1]);
    }
  }

  /** The `%05d` conversion of a non-negative int: its decimal digits, left-padded with zeros to a width of at least five. */
  function FormatFrameNumber(n: nat): (s: string)
    ensures |s| >= 5 && IsDigits(s)
    ensures DecimalValue(s) == n
    ensures |s| > 5 ==> s[0] != '0'
  {
    var digits := Decimal(n);
    if |digits| < 5 then
      var z := seq(5 - |digits|, _ => '0');
      LeadingZerosValue(z, digits);
      z + digits
    else digits
  }

  /**
   * `String.format(template, n)` for a template holding at most one `%`,
   * which starts the conversion `%05d`, given field, the rendering of n by
   * that conversion: the conversion becomes field and every other character
   * is copied. Any other template is outside the model (None): a second
   * conversion would lack its argument, and `%%`, `%n` and the other
   * conversions are not modelled.
   */
  function FormatFrame(template: string, field: string): (r: Option<string>)
    decreases |template|
  {
    if template == [] then Some([])
    else if template[0] != '%' then Prepend([template[0]], FormatFrame(template[1..], field))
    else if |template| >= 4 && template[1..4] == "05d" && '%' !in template[4..] then
      Some(field + template[4..])
    else None
  }

  /** Puts s in front of a formatted result; a failed formatting stays failed. */
  function Prepend(s: string, r: Option<string>): Option<string> {
    match r
    case None => None
    case Some(rest) => Some(s + rest)
  }

  /** The template a session builds from its unique temporary base path. */
  function FrameTemplate(base: string): string {
    base + "-%05d.png"
  }

  /** The path of the staged file for frame index i. */
  function FramePath(base: string, i: nat): string {
    base + "-" + FormatFrameNumber(i) + ".png"
  }

  /** Characters without `%` are copied through by FormatFrame. */
  lemma {:induction false} FormatPlainPrefix(s: string, t: string, field: string)
    requires '%' !in s
    ensures FormatFrame(s + t, field) == Prepend(s, FormatFrame(t, field))
    decreases |s|
  {
    if s == [] {
      assert s + t == t;
      match FormatFrame(t, field)
      case None =>
      case Some(r) => assert s + r == r;
    } else {
      var st := s + t;
      assert st[0] == s[0] && st[1..] == s[1..] + t;
      FormatPlainPrefix(s[1..], t, field);
      match FormatFrame(t, field)
      case None =>
      case Some(r) => assert [s[0]] + (s[1..] + r) == s + r;
    }
  }

  /** The conversion and suffix of the template format to the field and `.png`. */
  lemma FormatConversionSuffix(field: string)
    ensures FormatFrame("%05d.png", field) == Some(field + ".png")
  {
    var t := "%05d.png";
    assert t[0] == '%' && t[1..4] == "05d" && t[4..] == ".png";
  }

  /**
   * Formatting the session template with the `%05d` rendering of index i
   * gives the path of frame i, provided the base holds no `%`.
   */
  lemma FormatFrameTemplate(base: string, i: nat)
    requires '%' !in base
    ensures FormatFrame(FrameTemplate(base), FormatFrameNumber(i)) == Some(FramePath(base, i))
  {
    var prefix := base + "-";
    var field := FormatFrameNumber(i);
    FormatConversionSuffix(field);
    FormatPlainPrefix(prefix, "%05d.png", field);
    assert FrameTemplate(base) == prefix + "%05d.png";
    assert prefix + (field + ".png") == FramePath(base, i);
  }

  /**
   * Recovers the frame index from a path of the form
   * `<base>-<digits>.png` with at least five digits.
   */
  function ParseFramePath(base: string, path: string): (r: Option<nat>)
    ensures r.Some? ==> |path| >= |base| + 10 && path[..|base|] == base
  {
    var n := |path|;
    if n >= |base| + 10 && path[..|base|] == base && path[|base|] == '-'
       && path[n - 4..] == ".png" && IsDigits(path[|base| + 1..n - 4])
    then Some(DecimalValue(path[|base| + 1..n - 4]))
    else None
  }

  /** Parsing a frame path gives back its index. */
  lemma FramePathRoundTrip(base: string, i: nat)
    ensures ParseFramePath(base, FramePath(base, i)) == Some(i)
  {
    var digits := FormatFrameNumber(i);
    var path := FramePath(base, i);
    var n := |path|;
    assert n == |base| + 1 + |digits| + 4;
    assert path[..|base|] == base;
    assert path[|base|] == '-';
    assert path[n - 4..] == ".png";
    assert path[|base| + 1..n - 4] == digits;
  }

  /** Distinct indices name distinct files, so cleanup deletes each staged frame and nothing else of the session. */
  lemma FramePathInjective(base: string, i: nat, j: nat)
    ensures FramePath(base, i) == FramePath(base, j) <==> i == j
  {
    FramePathRoundTrip(base, i);
    FramePathRoundTrip(base, j);
  }

  /** A path that does not parse as a frame path of base is no frame path of it. */
  lemma NotFramePath(base: string, p: string)
    requires ParseFramePath(base, p).None?
    ensures forall i: nat :: FramePath(base, i) != p
  {
    forall i: nat
      ensures FramePath(base, i) != p
    {
      FramePathRoundTrip(base, i);
    }
  }
}

/**
 * ConfigManager::parseHexColor: the first match of the regular expression
 * (?:0x|#)?([0-9A-Fa-f]{6}) in a configuration value, as "#" plus the captured
 * six digits, or "#000000" when there is no match. The digits keep their case.
 */
module HexColor {
  import opened Wrappers

  predicate IsHexDigit(c: char)
  {
    ('0' <= c <= '9') || ('a' <= c <= 'f') || ('A' <= c <= 'F')
  }

  /** Six hexadecimal digits start at index j of s. */
  predicate HexRunAt(s: string, j: int)
  {
    0 <= j && j + 6 <= |s| && forall k :: j <= k < j + 6 ==> IsHexDigit(s[k])
  }

  /** One match attempt of the regular expression starting at index i, as a
      backtracking engine makes it: the optional prefix is tried first, "0x"
      before "#", and dropped only when the six digits cannot follow it. The
      result is the start of the captured group. */
  function MatchAt(s: string, i: nat): Option<nat>
  {
    if i + 2 <= |s| && s[i..i + 2] == "0x" && HexRunAt(s, i + 2) then Some(i + 2)
    else if i < |s| && s[i] == '#' && HexRunAt(s, i + 1) then Some(i + 1)
    else if HexRunAt(s, i) then Some(i)
    else None
  }

  /** A successful attempt at i captures a six-digit run, and no run starts
      between i and the capture: a prefix is never itself a hexadecimal digit
      run, because 'x' and '#' are not hexadecimal digits. */
  lemma MatchAtCapture(s: string, i: nat, k: nat)
    requires MatchAt(s, i) == Some(k)
    ensures i <= k && HexRunAt(s, k)
    ensures forall j :: i <= j < k ==> !HexRunAt(s, j)
  {
    if k == i + 2 {
      assert s[i + 1] == "0x"[1];
      assert !IsHexDigit(s[i + 1]);
    } else if k == i + 1 {
      assert !IsHexDigit(s[i]);
    }
  }

  /** QRegularExpression::match: attempts at i, i + 1, ... until one succeeds.
      The capture it returns is the leftmost six-digit run from i on; the
      optional prefix never moves it. */
  function Scan(s: string, i: nat): (r: Option<nat>)
    ensures r.Some? ==> i <= r.value && HexRunAt(s, r.value)
    ensures r.Some? ==> forall j :: i <= j < r.value ==> !HexRunAt(s, j)
    ensures r.None? ==> forall j :: i <= j ==> !HexRunAt(s, j)
    decreases |s| - i
  {
    if i >= |s| then None
    else
      match MatchAt(s, i)
      case Some(k) => MatchAtCapture(s, i, k); Some(k)
      case None => Scan(s, i + 1)
  }

  const DefaultColor: string := "#000000"

  /** A colour as parseHexColor writes it: '#' followed by six hexadecimal
      digits. */
  predicate IsColor(c: string)
  {
    |c| == 7 && c[0] == '#' && forall k :: 1 <= k < 7 ==> IsHexDigit(c[k])
  }

  /** The result is always a colour. */
  function ParseHexColor(value: string): (r: string)
    ensures IsColor(r)
  {
    match Scan(value, 0)
    case Some(k) => "#" + value[k..k + 6]
    case None => DefaultColor
  }

  /** The parsed colour is "#" plus the leftmost run of six hexadecimal digits
      in the value, copied with its case, and "#000000" when there is none. */
  lemma ParseHexColorLeftmostRun(value: string, j: nat)
    requires HexRunAt(value, j)
    requires forall i :: 0 <= i < j ==> !HexRunAt(value, i)
    ensures ParseHexColor(value) == "#" + value[j..j + 6]
  {
    var r := Scan(value, 0);
    assert r.Some? && r.value == j;
  }

  lemma ParseHexColorNoRun(value: string)
    requires forall j :: 0 <= j ==> !HexRunAt(value, j)
    ensures ParseHexColor(value) == DefaultColor
  {
  }

  /** The three accepted spellings of a colour give its digits, and the digits
      keep the case they were written in. */
  lemma ParseHexColorSpellings()
    ensures ParseHexColor("0x1a2B3c") == "#1a2B3c"
    ensures ParseHexColor("#1A2b3C") == "#1A2b3C"
    ensures ParseHexColor("1a2b3C") == "#1a2b3C"
  {
    var a, b, c := "0x1a2B3c", "#1A2b3C", "1a2b3C";
    assert !IsHexDigit(a[1]) && !IsHexDigit(b[0]);
    ParseHexColorLeftmostRun(a, 2);
    ParseHexColorLeftmostRun(b, 1);
    ParseHexColorLeftmostRun(c, 0);
  }

  /** The match may sit anywhere in the value; five digits are not a colour. */
  lemma ParseHexColorSearch()
    ensures ParseHexColor("{0x00AEEF}") == "#00AEEF"
    ensures ParseHexColor("0x12345") == DefaultColor
  {
    var d := "{0x00AEEF}";
    assert !IsHexDigit(d[0]) && !IsHexDigit(d[2]);
    ParseHexColorLeftmostRun(d, 3);
    assert d[3..9] == "00AEEF";
    var e := "0x12345";
    assert !IsHexDigit(e[1]);
    assert forall j :: 0 <= j ==> !HexRunAt(e, j);
  }
}

/**
 * The shared helpers of the storefront: the 5% transaction fee and the total
 * it gives, and the string helpers `truncateText`, `isValidEmail` and
 * `createSlug`. Amounts are integer cents.
 */
module Utils {
  import opened Js
  import Lists

  /** The fee rate, in percent, that every quote reports. */
  const FeePercentage: int := 5

  /**
   * `Math.round(amount * 0.05)`: the integer nearest to amount/20, a half
   * rounded up (towards +infinity, as `Math.round` does for negatives too).
   */
  function TransactionFee(amount: int): (fee: int)
    ensures 20 * fee - 10 <= amount < 20 * fee + 10
  {
    (amount + 10) / 20
  }

  /** `subtotal + calculateTransactionFee(subtotal)`: the subtotal plus 5%, rounded half up. */
  function Total(subtotal: int): (total: int)
    ensures total - subtotal == TransactionFee(subtotal)
    ensures 20 * total - 10 <= 21 * subtotal < 20 * total + 10
  {
    subtotal + TransactionFee(subtotal)
  }

  /** `Math.round(x * 0.05)` on a number that may be NaN. */
  function FeeOfNumber(x: Number): (fee: Number)
    ensures fee.NaN? <==> x.NaN?
    ensures x.Int? ==> fee == Int(TransactionFee(x.n))
  {
    match x
    case Int(a) => Int(TransactionFee(a))
    case NaN => NaN
  }

  /** The fee is the only integer within half a cent of 5% of the amount (halves go up). */
  lemma FeeIsUnique(amount: int, f: int)
    requires 20 * f - 10 <= amount < 20 * f + 10
    ensures f == TransactionFee(amount)
  {
  }

  /** Reference values: 5% of 100.00 is 5.00; 0.10 gives 0.01 (a half, rounded up); 0.09 gives 0. */
  lemma FeeSamples()
    ensures TransactionFee(10000) == 500
    ensures TransactionFee(10) == 1
    ensures TransactionFee(9) == 0
    ensures TransactionFee(2000) == 100
  {
  }

  /** On a non-negative amount the fee is between zero and the amount. */
  lemma FeeBounds(amount: int)
    requires amount >= 0
    ensures 0 <= TransactionFee(amount) <= amount
  {
  }

  /** The fee never decreases as the amount grows. */
  lemma FeeMonotone(a: int, b: int)
    requires a <= b
    ensures TransactionFee(a) <= TransactionFee(b)
  {
  }

  // ---------------------------------------------------------------------------
  // truncateText

  /** The `maxLength` used when the caller gives none. */
  const DefaultMaxLength: int := 50

  /**
   * `truncateText(text, maxLength)`: the text itself when it is empty or fits;
   * otherwise its first `maxLength` characters (none for a negative limit, as
   * `substring` clamps) followed by "...".
   */
  function TruncateText(text: string, maxLength: int): (r: string)
    ensures text == [] || |text| <= maxLength ==> r == text
    ensures 0 <= maxLength < |text| ==>
      |r| == maxLength + 3 && r[..maxLength] == text[..maxLength] && r[maxLength..] == "..."
    ensures maxLength < 0 && text != [] ==> r == "..."
    ensures |r| <= |text| || |r| <= (if maxLength < 0 then 0 else maxLength) + 3
  {
    if text == [] || |text| <= maxLength then text
    else
      var cut := if maxLength < 0 then 0 else maxLength;
      text[..cut] + "..."
  }

  // ---------------------------------------------------------------------------
  // isValidEmail

  /** The class `[^\s@]`. */
  predicate IsAddressChar(c: char) {
    !IsSpace(c) && c != '@'
  }

  /** Positions `lo` to `hi` hold only characters of the class `[^\s@]`. */
  predicate NoSpaceOrAt(s: string, lo: int, hi: int)
    requires 0 <= lo <= hi <= |s|
  {
    forall k :: lo <= k < hi ==> IsAddressChar(s[k])
  }

  /**
   * The pattern `^[^\s@]+@[^\s@]+\.[^\s@]+$`: a non-empty local part, `@`, a
   * non-empty run, `.`, and a non-empty run, none of the three holding white
   * space or `@`.
   */
  ghost predicate MatchesEmailPattern(s: string) {
    exists i, j :: 0 < i && i + 1 < j && j + 1 < |s| && s[i] == '@' && s[j] == '.' &&
      NoSpaceOrAt(s, 0, i) && NoSpaceOrAt(s, i + 1, j) && NoSpaceOrAt(s, j + 1, |s|)
  }

  /** `s.indexOf(c)`: the first position of `c`, or -1. */
  function IndexOf(s: string, c: char): (i: int)
    ensures -1 <= i < |s|
    ensures i >= 0 ==> s[i] == c
    ensures forall k :: 0 <= k < |s| && (i == -1 || k < i) ==> s[k] != c
  {
    if s == [] then -1
    else if s[0] == c then 0
    else
      var k := IndexOf(s[1..], c);
      if k == -1 then -1 else k + 1
  }

  /**
   * `isValidEmail(s)`: exactly one `@`, after a non-empty local part; no white
   * space; and a `.` in the domain with at least one character on each side.
   */
  function IsValidEmail(s: string): (ok: bool)
    ensures ok <==> MatchesEmailPattern(s)
  {
    var i := IndexOf(s, '@');
    EmailPatternAtFirstAt(s, i);
    0 < i && i + 4 <= |s| && NoSpaceOrAt(s, 0, i) && NoSpaceOrAt(s, i + 1, |s|) &&
      exists j :: i + 1 < j < |s| - 1 && s[j] == '.'
  }

  /** The pattern holds exactly when the scan at the first `@` succeeds. */
  lemma EmailPatternAtFirstAt(s: string, i: int)
    requires i == IndexOf(s, '@')
    ensures MatchesEmailPattern(s) <==>
      0 < i && i + 4 <= |s| && NoSpaceOrAt(s, 0, i) && NoSpaceOrAt(s, i + 1, |s|) &&
      exists j :: i + 1 < j < |s| - 1 && s[j] == '.'
  {
    if 0 < i && i + 4 <= |s| && NoSpaceOrAt(s, 0, i) && NoSpaceOrAt(s, i + 1, |s|) &&
      exists j :: i + 1 < j < |s| - 1 && s[j] == '.'
    {
      EmailPatternFromCheck(s, i);
    }
    if MatchesEmailPattern(s) {
      EmailCheckFromPattern(s, i);
    }
  }

  /** A string that passes the scan at its first `@` matches the pattern. */
  lemma EmailPatternFromCheck(s: string, i: int)
    requires i == IndexOf(s, '@')
    requires 0 < i && i + 4 <= |s| && NoSpaceOrAt(s, 0, i) && NoSpaceOrAt(s, i + 1, |s|)
    requires exists j :: i + 1 < j < |s| - 1 && s[j] == '.'
    ensures MatchesEmailPattern(s)
  {
    var j :| i + 1 < j < |s| - 1 && s[j] == '.';
    assert NoSpaceOrAt(s, i + 1, j) && NoSpaceOrAt(s, j + 1, |s|);
  }

  /** A string matching the pattern passes the scan at its first `@`. */
  lemma EmailCheckFromPattern(s: string, i: int)
    requires i == IndexOf(s, '@')
    requires MatchesEmailPattern(s)
    ensures 0 < i && i + 4 <= |s| && NoSpaceOrAt(s, 0, i) && NoSpaceOrAt(s, i + 1, |s|)
    ensures exists j :: i + 1 < j < |s| - 1 && s[j] == '.'
  {
    var i', j :| 0 < i' && i' + 1 < j && j + 1 < |s| && s[i'] == '@' && s[j] == '.' &&
      NoSpaceOrAt(s, 0, i') && NoSpaceOrAt(s, i' + 1, j) && NoSpaceOrAt(s, j + 1, |s|);
    FirstAtOfPattern(s, i, i');
    assert IsAddressChar(s[j]);
    NoSpaceOrAtJoin(s, i + 1, j, |s|);
  }

  /** An `@` with no `@` before it is the first one. */
  lemma FirstAtOfPattern(s: string, i: int, i': int)
    requires i == IndexOf(s, '@')
    requires 0 <= i' < |s| && s[i'] == '@' && NoSpaceOrAt(s, 0, i')
    ensures i == i'
  {
    assert i != -1 && i <= i';
    assert i < i' ==> IsAddressChar(s[i]);
  }

  /** Two clean ranges around a clean character make one clean range. */
  lemma NoSpaceOrAtJoin(s: string, lo: int, mid: int, hi: int)
    requires 0 <= lo <= mid < hi <= |s|
    requires NoSpaceOrAt(s, lo, mid) && IsAddressChar(s[mid]) && NoSpaceOrAt(s, mid + 1, hi)
    ensures NoSpaceOrAt(s, lo, hi)
  {
  }

  // ---------------------------------------------------------------------------
  // createSlug

  /** The class `\w`: ASCII letters, digits and `_`. */
  predicate IsWordChar(c: char) {
    'a' <= c <= 'z' || 'A' <= c <= 'Z' || '0' <= c <= '9' || c == '_'
  }

  /** A character a slug may hold: a lower-case ASCII letter, a digit, `_` or `-`. */
  predicate IsSlugChar(c: char) {
    'a' <= c <= 'z' || '0' <= c <= '9' || c == '_' || c == '-'
  }

  /** Lower-case word characters and hyphens only, and never two hyphens in a row. */
  predicate IsSlug(s: string) {
    && (forall i :: 0 <= i < |s| ==> IsSlugChar(s[i]))
    && (forall i :: 0 < i < |s| ==> !(s[i - 1] == '-' && s[i] == '-'))
  }

  /** No ASCII upper-case letter. */
  predicate NoUpper(s: string) {
    forall i :: 0 <= i < |s| ==> !IsUpperAscii(s[i])
  }

  /** `.replace(/\s+/g, '-')`; `inRun` says the previous character was white space. */
  function ReplaceSpaceRuns(s: string, inRun: bool): (r: string)
    ensures forall i :: 0 <= i < |r| ==> !IsSpace(r[i])
    ensures NoUpper(s) ==> NoUpper(r)
  {
    if s == [] then []
    else if IsSpace(s[0]) then
      (if inRun then ReplaceSpaceRuns(s[1..], true) else "-" + ReplaceSpaceRuns(s[1..], true))
    else [s[0]] + ReplaceSpaceRuns(s[1..], false)
  }

  /** `.replace(/[^\w-]+/g, '')`: every character outside `[\w-]` removed. */
  function RemoveNonWord(s: string): (r: string)
    ensures forall i :: 0 <= i < |r| ==> IsWordChar(r[i]) || r[i] == '-'
    ensures NoUpper(s) ==> NoUpper(r)
  {
    var r := Lists.Filter(s, (c: char) => IsWordChar(c) || c == '-');
    assert forall i :: 0 <= i < |r| ==> r[i] in r;
    assert forall i :: 0 <= i < |s| ==> s[i] in s;
    r
  }

  /** `.replace(/--+/g, '-')`; `afterHyphen` says a hyphen was just emitted. */
  function CollapseHyphens(s: string, afterHyphen: bool): (r: string)
    ensures (forall i :: 0 <= i < |s| ==> IsSlugChar(s[i])) ==> forall i :: 0 <= i < |r| ==> IsSlugChar(r[i])
    ensures forall i :: 0 < i < |r| ==> !(r[i - 1] == '-' && r[i] == '-')
    ensures afterHyphen && r != [] ==> r[0] != '-'
  {
    if s == [] then []
    else if s[0] == '-' then
      (if afterHyphen then CollapseHyphens(s[1..], true) else "-" + CollapseHyphens(s[1..], true))
    else [s[0]] + CollapseHyphens(s[1..], false)
  }

  /**
   * `createSlug(text)`: lower-case, white-space runs to `-`, characters
   * outside `[\w-]` dropped, hyphen runs collapsed, then trimmed. Leading and
   * trailing hyphens stay.
   */
  function CreateSlug(text: string): (slug: string)
    ensures IsSlug(slug)
    ensures forall i :: 0 <= i < |slug| ==> !IsSpace(slug[i])
  {
    var words := RemoveNonWord(ReplaceSpaceRuns(ToLowerCase(text), false));
    CollapsedWordsAreSlug(words);
    Trim(CollapseHyphens(words, false))
  }

  /** Collapsing the hyphens of lower-case word characters gives a slug that `trim` leaves alone. */
  lemma CollapsedWordsAreSlug(words: string)
    requires forall i :: 0 <= i < |words| ==> IsWordChar(words[i]) || words[i] == '-'
    requires NoUpper(words)
    ensures var collapsed := CollapseHyphens(words, false);
      IsSlug(collapsed) && Trim(collapsed) == collapsed &&
      forall i :: 0 <= i < |collapsed| ==> !IsSpace(collapsed[i])
  {
    WordsAreSlugChars(words);
    var collapsed := CollapseHyphens(words, false);
    assert forall i :: 0 <= i < |collapsed| ==> IsSlugChar(collapsed[i]);
    SlugHasNoSpace(collapsed);
  }

  /** Lower-case word characters and hyphens are slug characters. */
  lemma WordsAreSlugChars(words: string)
    requires forall i :: 0 <= i < |words| ==> IsWordChar(words[i]) || words[i] == '-'
    requires NoUpper(words)
    ensures forall i :: 0 <= i < |words| ==> IsSlugChar(words[i])
  {
  }

  /** A slug holds no white space, so `trim` leaves it alone. */
  lemma SlugHasNoSpace(s: string)
    requires forall i :: 0 <= i < |s| ==> IsSlugChar(s[i])
    ensures forall i :: 0 <= i < |s| ==> !IsSpace(s[i])
    ensures Trim(s) == s
  {
  }

  /** A string without white space is left alone by the white-space replacement. */
  lemma {:induction false} ReplaceSpaceRunsNoSpace(s: string, inRun: bool)
    requires forall i :: 0 <= i < |s| ==> !IsSpace(s[i])
    ensures ReplaceSpaceRuns(s, inRun) == s
  {
    if s != [] {
      ReplaceSpaceRunsNoSpace(s[1..], false);
      assert [s[0]] + s[1..] == s;
    }
  }

  /** A string with no hyphen pair is left alone by the collapse. */
  lemma {:induction false} CollapseHyphensSlug(s: string, afterHyphen: bool)
    requires forall i :: 0 < i < |s| ==> !(s[i - 1] == '-' && s[i] == '-')
    requires afterHyphen ==> s == [] || s[0] != '-'
    ensures CollapseHyphens(s, afterHyphen) == s
  {
    if s != [] {
      CollapseHyphensSlug(s[1..], s[0] == '-');
      assert [s[0]] + s[1..] == s;
    }
  }

  /** Every step of `createSlug` leaves a slug unchanged. */
  lemma SlugIsFixedPoint(s: string)
    requires IsSlug(s)
    ensures CreateSlug(s) == s
  {
    assert ToLowerCase(s) == s by {
      assert forall i :: 0 <= i < |s| ==> !IsUpperAscii(s[i]);
    }
    SlugHasNoSpace(s);
    ReplaceSpaceRunsNoSpace(s, false);
    Lists.FilterAll(s, (c: char) => IsWordChar(c) || c == '-');
    assert RemoveNonWord(ReplaceSpaceRuns(ToLowerCase(s), false)) == s;
    CollapseHyphensSlug(s, false);
  }

  /** `createSlug` is idempotent. */
  lemma CreateSlugIdempotent(text: string)
    ensures CreateSlug(CreateSlug(text)) == CreateSlug(text)
  {
    SlugIsFixedPoint(CreateSlug(text));
  }
}

/** `safe_normalize_phone` (bot.py:139-144): a typed phone number is kept
    when, after dropping every character other than a digit or `+`, at
    least six digits remain. */
module PhoneNumbers {
  import opened Wrappers

  /** The ASCII decimal digits; see README for the other Unicode digits `\d` matches. */
  predicate IsDigit(c: char) {
    '0' <= c <= '9'
  }

  /** A character `[\d+]` keeps. */
  predicate IsDialChar(c: char) {
    IsDigit(c) || c == '+'
  }

  /** `re.sub(r"[^\d+]", "", s)` */
  function KeepDialChars(s: string): (r: string)
    ensures |r| <= |s|
    ensures forall i :: 0 <= i < |r| ==> IsDialChar(r[i])
  {
    if s == [] then ""
    else if IsDialChar(s[0]) then [s[0]] + KeepDialChars(s[1..])
    else KeepDialChars(s[1..])
  }

  /** `len(re.sub(r"\D", "", s))` */
  function DigitCount(s: string): (n: nat)
    ensures n <= |s|
  {
    if s == [] then 0 else (if IsDigit(s[0]) then 1 else 0) + DigitCount(s[1..])
  }

  /** Dropping the other characters loses no digit. */
  lemma {:induction false} KeepDialCharsKeepsDigits(s: string)
    ensures DigitCount(KeepDialChars(s)) == DigitCount(s)
  {
    if s != [] {
      KeepDialCharsKeepsDigits(s[1..]);
      if IsDialChar(s[0]) {
        assert ([s[0]] + KeepDialChars(s[1..]))[1..] == KeepDialChars(s[1..]);
      }
    }
  }

  /** A string made of dial characters only is left as it is. */
  lemma {:induction false} KeepDialCharsFixes(s: string)
    requires forall i :: 0 <= i < |s| ==> IsDialChar(s[i])
    ensures KeepDialChars(s) == s
  {
    if s != [] {
      KeepDialCharsFixes(s[1..]);
    }
  }

  /** `safe_normalize_phone`: `None` for an empty text or one with fewer
      than six digits; otherwise the text reduced to its digits and `+`
      signs, which holds at least six digits. */
  function NormalizePhone(text: string): (r: Option<string>)
    ensures r.None? <==> text == "" || DigitCount(text) < 6
    ensures r.Some? ==> r.value == KeepDialChars(text) && DigitCount(r.value) >= 6
    ensures r.Some? ==> forall i :: 0 <= i < |r.value| ==> IsDialChar(r.value[i])
  {
    if text == "" then None
    else
      var s := KeepDialChars(text);
      KeepDialCharsKeepsDigits(text);
      if DigitCount(s) >= 6 then Some(s) else None
  }

  /** Normalizing a normalized number gives it back unchanged. */
  lemma NormalizeIdempotent(text: string)
    requires NormalizePhone(text).Some?
    ensures NormalizePhone(NormalizePhone(text).value) == NormalizePhone(text)
  {
    var s := NormalizePhone(text).value;
    KeepDialCharsFixes(s);
  }
}

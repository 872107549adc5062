/** The free-text language choice of `lang_chosen` (bot.py:222-229): the
    lower-cased text is tested against the Russian tokens first, then the
    Uzbek ones, and anything else selects English. */
module Language {
  import opened Strings

  const RussianTokens: seq<string> := ["рус", "ru", "russian", "рос"]
  const UzbekTokens: seq<string> := ["uz", "ўз", "uzbek", "uz"]

  /** Some token of the list occurs in `low`. */
  predicate MentionsAny(low: string, tokens: seq<string>) {
    exists i :: 0 <= i < |tokens| && Contains(low, tokens[i])
  }

  lemma RussianTokensAre(low: string)
    ensures MentionsAny(low, RussianTokens) <==>
      Contains(low, "рус") || Contains(low, "ru") || Contains(low, "russian") || Contains(low, "рос")
  {
    var t := RussianTokens;
    assert t[0] == "рус" && t[1] == "ru" && t[2] == "russian" && t[3] == "рос";
  }

  lemma UzbekTokensAre(low: string)
    ensures MentionsAny(low, UzbekTokens) <==>
      Contains(low, "uz") || Contains(low, "ўз") || Contains(low, "uzbek") || Contains(low, "uz")
  {
    var t := UzbekTokens;
    assert t[0] == "uz" && t[1] == "ўз" && t[2] == "uzbek" && t[3] == "uz";
  }

  /** The language code chosen for the lower-cased text `low`. */
  function DetectLanguage(low: string): (r: string)
    ensures r == "ru" <==> MentionsAny(low, RussianTokens)
    ensures r == "uz" <==> !MentionsAny(low, RussianTokens) && MentionsAny(low, UzbekTokens)
    ensures r == "en" <==> !MentionsAny(low, RussianTokens) && !MentionsAny(low, UzbekTokens)
  {
    RussianTokensAre(low);
    UzbekTokensAre(low);
    if Contains(low, "рус") || Contains(low, "ru") || Contains(low, "russian") || Contains(low, "рос") then "ru"
    else if Contains(low, "uz") || Contains(low, "ўз") || Contains(low, "uzbek") || Contains(low, "uz") then "uz"
    else "en"
  }

  /** `t` occurs at position `k` of `s.lower()`. */
  predicate LowersTo(s: string, t: string, k: nat) {
    k + |t| <= |s| && forall j :: 0 <= j < |t| ==> LowerChar(s[k + j]) == t[j]
  }

  lemma LowerContains(s: string, t: string, k: nat)
    requires LowersTo(s, t, k)
    ensures Contains(Lower(s), t)
  {
    assert Lower(s)[k..k + |t|] == t;
    ContainsAt(Lower(s), t, k);
  }

  /** A text in which a Russian token occurs selects Russian. */
  lemma DetectsRussian(s: string, i: nat, k: nat)
    requires i < |RussianTokens| && LowersTo(s, RussianTokens[i], k)
    ensures DetectLanguage(Lower(s)) == "ru"
  {
    LowerContains(s, RussianTokens[i], k);
  }

  /** A lower-cased text that holds an Uzbek token and lacks the first
      letters of the Russian ones selects Uzbek. */
  lemma UzbekWithoutRussian(low: string, i: nat)
    requires i < |UzbekTokens| && Contains(low, UzbekTokens[i])
    requires 'р' !in low && 'r' !in low
    ensures DetectLanguage(low) == "uz"
  {
    NotContainsFirstChar(low, "рус");
    NotContainsFirstChar(low, "ru");
    NotContainsFirstChar(low, "russian");
    NotContainsFirstChar(low, "рос");
  }

  /** A lower-cased text lacking the first letter of every token selects
      English. */
  lemma EnglishWithoutTokens(low: string)
    requires 'р' !in low && 'r' !in low && 'u' !in low && 'ў' !in low
    ensures DetectLanguage(low) == "en"
  {
    NotContainsFirstChar(low, "рус");
    NotContainsFirstChar(low, "ru");
    NotContainsFirstChar(low, "russian");
    NotContainsFirstChar(low, "рос");
    NotContainsFirstChar(low, "uz");
    NotContainsFirstChar(low, "ўз");
    NotContainsFirstChar(low, "uzbek");
  }

  /** A text with an Uzbek token and no character that lower-cases to the
      first letter of a Russian token selects Uzbek. */
  lemma DetectsUzbek(s: string, i: nat, k: nat)
    requires i < |UzbekTokens| && LowersTo(s, UzbekTokens[i], k)
    requires forall j :: 0 <= j < |s| ==> LowerChar(s[j]) != 'р' && LowerChar(s[j]) != 'r'
    ensures DetectLanguage(Lower(s)) == "uz"
  {
    LowerContains(s, UzbekTokens[i], k);
    LowerLacks(s, 'р');
    LowerLacks(s, 'r');
    UzbekWithoutRussian(Lower(s), i);
  }

  /** A text with no character that lower-cases to the first letter of any
      token selects English. */
  lemma DetectsEnglish(s: string)
    requires forall j :: 0 <= j < |s| ==>
      LowerChar(s[j]) != 'р' && LowerChar(s[j]) != 'r' && LowerChar(s[j]) != 'u' && LowerChar(s[j]) != 'ў'
    ensures DetectLanguage(Lower(s)) == "en"
  {
    LowerLacks(s, 'р');
    LowerLacks(s, 'r');
    LowerLacks(s, 'u');
    LowerLacks(s, 'ў');
    EnglishWithoutTokens(Lower(s));
  }

  lemma RussianButton()
    ensures DetectLanguage(Lower("🇷🇺 Russian")) == "ru"
  {
    DetectsRussian("🇷🇺 Russian", 1, 3);
  }

  lemma UzbekButton()
    ensures DetectLanguage(Lower("🇺🇿 Uzbek")) == "uz"
  {
    DetectsUzbek("🇺🇿 Uzbek", 0, 3);
  }

  lemma EnglishButton()
    ensures DetectLanguage(Lower("🇬🇧 English")) == "en"
  {
    DetectsEnglish("🇬🇧 English");
  }

  /** Capitalized Cyrillic names are lower-cased before the test. */
  lemma CyrillicNames()
    ensures DetectLanguage(Lower("Русский")) == "ru"
    ensures DetectLanguage(Lower("Ўзбекча")) == "uz"
  {
    DetectsRussian("Русский", 0, 0);
    DetectsUzbek("Ўзбекча", 1, 0);
  }
}

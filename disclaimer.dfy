/**
 * The disclaimer footer's locale lookup: the first two characters of the
 * locale, lowercased, choose the English table when they read `en` and the
 * Japanese table otherwise.
 */
module DisclaimerTranslations {
  import opened Common

  datatype DisclaimerTranslation = DisclaimerTranslation(
    copyright: string, allRightsReserved: string,
    informationPurpose: string, simulationDisclaimer: string,
    terms: string, privacy: string, legal: string)

  const JaTable := DisclaimerTranslation(
    "LifePlan Navigator", "All rights reserved.",
    "本サービスは情報提供を目的としており、金融商品の勧誘を目的とするものではありません。",
    "シミュレーション結果は参考値であり、実際の運用結果を保証するものではありません。",
    "利用規約", "プライバシーポリシー", "特定商取引法に基づく表記")

  const EnTable := DisclaimerTranslation(
    "LifePlan Navigator", "All rights reserved.",
    "This service is for informational purposes only and does not constitute financial advice or solicitation.",
    "Simulation results are estimates only and do not guarantee actual investment outcomes.",
    "Terms of Service", "Privacy Policy", "Legal Notice")

  /** `locale.substring(0, 2).toLowerCase()`: at most two characters, each lowercased. */
  function LocaleKey(locale: string): (r: string)
    ensures |r| == Min(2, |locale|)
    ensures forall i :: 0 <= i < |r| ==> r[i] == LowerChar(locale[i])
  {
    Lower(locale[..Min(2, |locale|)])
  }

  /** The supported locales are the keys of the translation table. */
  function Table(key: string): Option<DisclaimerTranslation> {
    if key == "ja" then Some(JaTable)
    else if key == "en" then Some(EnTable)
    else None
  }

  /** `getDisclaimerTranslation(locale)`: the table for a supported key, Japanese otherwise. */
  function GetDisclaimerTranslation(locale: string): (r: DisclaimerTranslation)
    ensures r == JaTable || r == EnTable
    ensures r == EnTable <==> |locale| >= 2 && LowerChar(locale[0]) == 'e' && LowerChar(locale[1]) == 'n'
  {
    var key := LocaleKey(locale);
    match Table(key)
    case Some(t) => t
    case None => JaTable
  }

  /** A region or any other suffix after the two-letter prefix is ignored (`en-US`, `ja-JP`). */
  lemma SuffixIgnored(locale: string, suffix: string)
    requires |locale| >= 2
    ensures GetDisclaimerTranslation(locale + suffix) == GetDisclaimerTranslation(locale)
  {
    assert (locale + suffix)[0] == locale[0] && (locale + suffix)[1] == locale[1];
  }

  /** Locales that do not start with `en`, in any case, get the Japanese table. */
  lemma FallbackIsJapanese(locale: string)
    requires !(|locale| >= 2 && LowerChar(locale[0]) == 'e' && LowerChar(locale[1]) == 'n')
    ensures GetDisclaimerTranslation(locale) == JaTable
  {
  }

  /** The lookup does not depend on the case of the locale. */
  lemma CaseIgnored(locale: string)
    ensures GetDisclaimerTranslation(Upper(locale)) == GetDisclaimerTranslation(locale)
    ensures GetDisclaimerTranslation(Lower(locale)) == GetDisclaimerTranslation(locale)
  {
  }
}

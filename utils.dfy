/** backend/modules/utils.py: the language decision rule, the language flag
    and the keyword-driven follow-up suggestions. */
module Utils {
  import opened Wrappers
  import opened Builtins

  // ---------------------------------------------------------------------
  // Language detection
  // ---------------------------------------------------------------------

  /** The fixed set of small Vietnamese letters with diacritics (67 code
      points, including đ). */
  const VIETNAMESE_CHARS: string :=
    VIETNAMESE_A + VIETNAMESE_E + VIETNAMESE_I + VIETNAMESE_O + VIETNAMESE_U + VIETNAMESE_Y + "đ"

  // The same set in the source's order, one vowel at a time.
  const VIETNAMESE_A: string := "àáạảãâầấậẩẫăằắặẳẵ"
  const VIETNAMESE_E: string := "èéẹẻẽêềếệểễ"
  const VIETNAMESE_I: string := "ìíịỉĩ"
  const VIETNAMESE_O: string := "òóọỏõôồốộổỗơờớợởỡ"
  const VIETNAMESE_U: string := "ùúụủũưừứựửữ"
  const VIETNAMESE_Y: string := "ỳýỵỷỹ"

  /** The capitals of VIETNAMESE_CHARS, in the same order
      (ÀÁẠẢÃÂẦẤẬẨẪĂẰẮẶẲẴÈÉẸẺẼÊỀẾỆỂỄÌÍỊỈĨÒÓỌỎÕÔỒỐỘỔỖƠỜỚỢỞỠÙÚỤỦŨƯỪỨỰỬỮỲÝỴỶỸĐ). */
  const VIETNAMESE_CAPITALS: string :=
    seq(|VIETNAMESE_CHARS|, i requires 0 <= i < |VIETNAMESE_CHARS| => CapitalOf(VIETNAMESE_CHARS[i]))

  /** Some character of the lower-cased text is a Vietnamese diacritic letter. */
  function HasVietnamese(text: string): (r: bool)
    ensures r <==> exists i :: 0 <= i < |text| && LowerChar(text[i]) in VIETNAMESE_CHARS
  {
    var lowered := Lower(text);
    AnyCharIn(lowered, VIETNAMESE_CHARS)
  }

  /** `detect_language(text)`. `identified` is what the statistical language
      identifier returned for `text`, or None when it raised; the diacritic
      scan only happens when it returned. */
  function DetectLanguage(text: string, identified: Option<string>): (r: string)
    ensures r == "vi" || r == "en"
    ensures identified.None? ==> r == "en"
  {
    match identified
    case None => "en"
    case Some(detected) =>
      if HasVietnamese(text) || detected == "vi" then "vi" else "en"
  }

  /** A diacritic letter, small or capital, overrides whatever the
      identifier returned, provided it returned at all. */
  lemma DiacriticOverridesIdentifier(text: string, detected: string, i: int)
    requires 0 <= i < |text|
    requires text[i] in VIETNAMESE_CHARS || text[i] in VIETNAMESE_CAPITALS
    ensures DetectLanguage(text, Some(detected)) == "vi"
  {
    LowerKeepsOrFoldsDiacritics(text[i]);
  }

  /** The identifier's own "vi" verdict is enough, diacritics or not. */
  lemma IdentifierVerdictVi(text: string)
    ensures DetectLanguage(text, Some("vi")) == "vi"
  {
  }

  /** When the identifier raises the answer is "en", even for text full of
      diacritics that would give "vi" had it returned any verdict: the scan
      is never reached. */
  lemma IdentifierFailureFailsOpen(text: string, detected: string)
    ensures DetectLanguage(text, None) == "en"
    ensures HasVietnamese(text) ==> DetectLanguage(text, Some(detected)) == "vi"
  {
  }

  /** Both directions of the decision rule when the identifier returns. */
  lemma DetectLanguageDecision(text: string, detected: string)
    ensures DetectLanguage(text, Some(detected)) == "vi" <==>
      detected == "vi" || exists i :: 0 <= i < |text| && LowerChar(text[i]) in VIETNAMESE_CHARS
  {
  }

  /** Lower-casing maps exactly the small and capital diacritic letters into
      the set, so the scan is case-insensitive for Vietnamese letters. */
  lemma LowerKeepsOrFoldsDiacritics(c: char)
    ensures LowerChar(c) in VIETNAMESE_CHARS <==> c in VIETNAMESE_CHARS || c in VIETNAMESE_CAPITALS
  {
    forall x | x in VIETNAMESE_CHARS
      ensures LowerChar(x) == x && LowerChar(CapitalOf(x)) == x
    {
      DiacriticsHaveCapitals(x);
      LowerOfCapital(x);
    }
    if c in VIETNAMESE_CAPITALS {
      var i :| 0 <= i < |VIETNAMESE_CAPITALS| && VIETNAMESE_CAPITALS[i] == c;
      assert LowerChar(c) == VIETNAMESE_CHARS[i];
    }
    if LowerChar(c) in VIETNAMESE_CHARS && LowerChar(c) != c {
      var i :| 0 <= i < |VIETNAMESE_CHARS| && VIETNAMESE_CHARS[i] == LowerChar(c);
      CapitalOfLower(c);
      assert VIETNAMESE_CAPITALS[i] == c;
    }
  }

  /** The capital whose lower case is `c`, for the small letters that
      LowerChar produces; every other code point is its own capital. */
  function CapitalOf(c: char): char
  {
    var n := c as int;
    if 'a' <= c <= 'z' then (n - 32) as char
    else if 0xE0 <= n <= 0xFE && n != 0xF7 then (n - 32) as char
    else if n == 0x103 || n == 0x111 || n == 0x129 || n == 0x169 || n == 0x1A1 || n == 0x1B0 then (n - 1) as char
    else if 0x1EA1 <= n <= 0x1EF9 && n % 2 == 1 then (n - 1) as char
    else c
  }

  /** Every letter of the diacritic set is a small letter with a capital. */
  lemma DiacriticsHaveCapitals(x: char)
    requires x in VIETNAMESE_CHARS
    ensures CapitalOf(x) != x
  {
    if x in VIETNAMESE_A { AHasCapitals(x); }
    else if x in VIETNAMESE_E { EHasCapitals(x); }
    else if x in VIETNAMESE_I { IHasCapitals(x); }
    else if x in VIETNAMESE_O { OHasCapitals(x); }
    else if x in VIETNAMESE_U { UHasCapitals(x); }
    else if x in VIETNAMESE_Y { YHasCapitals(x); }
  }

  // One vowel group per lemma, so that each case split stays small.
  lemma AHasCapitals(x: char) requires x in VIETNAMESE_A ensures CapitalOf(x) != x {}
  lemma EHasCapitals(x: char) requires x in VIETNAMESE_E ensures CapitalOf(x) != x {}
  lemma IHasCapitals(x: char) requires x in VIETNAMESE_I ensures CapitalOf(x) != x {}
  lemma OHasCapitals(x: char) requires x in VIETNAMESE_O ensures CapitalOf(x) != x {}
  lemma UHasCapitals(x: char) requires x in VIETNAMESE_U ensures CapitalOf(x) != x {}
  lemma YHasCapitals(x: char) requires x in VIETNAMESE_Y ensures CapitalOf(x) != x {}

  /** Lower-casing leaves a small letter alone and turns its capital back
      into it. */
  lemma LowerOfCapital(c: char)
    requires CapitalOf(c) != c
    ensures LowerChar(c) == c && LowerChar(CapitalOf(c)) == c
  {
  }

  /** Lower-casing loses nothing: a code point it changes is the capital of
      its image. */
  lemma CapitalOfLower(c: char)
    requires LowerChar(c) != c
    ensures CapitalOf(LowerChar(c)) == c
  {
  }


  // ---------------------------------------------------------------------
  // Language flag
  // ---------------------------------------------------------------------

  const VN_FLAG: string := "\U{1F1FB}\U{1F1F3}"
  const US_FLAG: string := "\U{1F1FA}\U{1F1F8}"

  /** `get_language_flag(language)`: the Vietnamese flag for "vi" and the US
      flag for every other value. */
  function LanguageFlag(language: string): (r: string)
    ensures r == VN_FLAG || r == US_FLAG
    ensures r == VN_FLAG <==> language == "vi"
  {
    if language == "vi" then VN_FLAG else US_FLAG
  }

  // ---------------------------------------------------------------------
  // Context suggestions
  // ---------------------------------------------------------------------

  /** One entry of a suggestion table: if any keyword occurs in the
      lower-cased response, these three follow-up questions are offered. */
  datatype Rule = Rule(keywords: seq<string>, suggestions: seq<string>)

  /** The Vietnamese table, in declaration order: events and schedule,
      location, APEC in general, business and economy. */
  const VI_RULES: seq<Rule> := [
    Rule(["sự kiện", "lịch", "tháng 5", "cuộc họp"],
         ["Chi tiết về các cuộc họp quan trọng nhất?",
          "Ai sẽ tham dự các sự kiện này?",
          "Làm thế nào để đăng ký tham gia?"]),
    Rule(["địa điểm", "nơi", "tổ chức", "venue"],
         ["Hướng dẫn đến các địa điểm này?",
          "Có dịch vụ đưa đón không?",
          "Thông tin về chỗ ở gần đó?"]),
    Rule(["apec", "tổ chức", "mục tiêu"],
         ["Lịch sử của APEC là gì?",
          "Các thành viên APEC hiện tại?",
          "Vai trò của Hàn Quốc trong APEC 2025?"]),
    Rule(["kinh tế", "thương mại", "doanh nghiệp"],
         ["Cơ hội kinh doanh từ APEC 2025?",
          "Các thỏa thuận thương mại mới?",
          "Tác động đến nền kinh tế khu vực?"])
  ]

  /** The English table, in the same topic order. */
  const EN_RULES: seq<Rule> := [
    Rule(["event", "schedule", "may", "meeting", "conference"],
         ["What are the most important meetings?",
          "Who will attend these events?",
          "How to register for participation?"]),
    Rule(["venue", "location", "place", "where"],
         ["How to get to these venues?",
          "Is transportation provided?",
          "Accommodation options nearby?"]),
    Rule(["apec", "organization", "goal", "objective"],
         ["What is the history of APEC?",
          "Current APEC member countries?",
          "Korea's role in APEC 2025?"]),
    Rule(["economic", "trade", "business", "commerce"],
         ["Business opportunities from APEC 2025?",
          "New trade agreements?",
          "Impact on regional economy?"])
  ]

  const VI_DEFAULTS: seq<string> := [
    "Cho tôi biết thêm chi tiết?",
    "Có thông tin nào khác không?",
    "Tôi có thể hỏi gì tiếp theo?"
  ]

  const EN_DEFAULTS: seq<string> := [
    "Tell me more details?",
    "Any other information?",
    "What else can I ask?"
  ]

  /** "vi" selects the Vietnamese table; every other value the English one. */
  function RulesFor(language: string): (r: seq<Rule>)
    ensures language == "vi" ==> r == VI_RULES
    ensures language != "vi" ==> r == EN_RULES
  {
    if language == "vi" then VI_RULES else EN_RULES
  }

  /** The list offered when no rule matches, per language. */
  function DefaultsFor(language: string): (r: seq<string>)
    ensures language == "vi" ==> r == VI_DEFAULTS
    ensures language != "vi" ==> r == EN_DEFAULTS
  {
    if language == "vi" then VI_DEFAULTS else EN_DEFAULTS
  }

  /** Python's `any(keyword in text for keyword in keywords)`. */
  function AnyKeyword(text: string, keywords: seq<string>): (r: bool)
    ensures r <==> exists i :: 0 <= i < |keywords| && Contains(text, keywords[i])
  {
    if |keywords| == 0 then false
    else if Contains(text, keywords[0]) then true
    else
      var r := AnyKeyword(text, keywords[1..]);
      assert forall i :: 1 <= i < |keywords| ==> keywords[i] == keywords[1..][i - 1];
      r
  }

  predicate Matches(rule: Rule, text: string)
  {
    AnyKeyword(text, rule.keywords)
  }

  /** The position of the first rule, in table order, that matches `text`. */
  function FirstMatch(rules: seq<Rule>, text: string): (r: Option<nat>)
    ensures r.Some? ==> r.value < |rules| && Matches(rules[r.value], text)
    ensures r.Some? ==> forall j :: 0 <= j < r.value ==> !Matches(rules[j], text)
    ensures r.None? ==> forall j :: 0 <= j < |rules| ==> !Matches(rules[j], text)
  {
    if |rules| == 0 then None
    else if Matches(rules[0], text) then Some(0)
    else
      match FirstMatch(rules[1..], text)
      case None => None
      case Some(i) => Some(i + 1)
  }

  /** What every offered suggestion looks like: a short question. */
  predicate IsQuestion(s: string)
  {
    6 <= |s| <= 99 && s[|s| - 1] == '?'
  }

  /** Three distinct short questions. */
  predicate IsSuggestionList(r: seq<string>)
  {
    |r| == 3 &&
    (forall i :: 0 <= i < |r| ==> IsQuestion(r[i])) &&
    (forall i, j :: 0 <= i < j < |r| ==> r[i] != r[j])
  }

  /** `get_context_suggestions(response_content, language)`. */
  function GetContextSuggestions(responseContent: string, language: string): (r: seq<string>)
    ensures IsSuggestionList(r)
  {
    TablesAreWellFormed();
    var rules := RulesFor(language);
    match FirstMatch(rules, Lower(responseContent))
    case Some(i) => rules[i].suggestions
    case None => DefaultsFor(language)
  }

  /** Every list either table can return is three distinct short questions. */
  lemma TablesAreWellFormed()
    ensures forall i :: 0 <= i < |VI_RULES| ==> IsSuggestionList(VI_RULES[i].suggestions)
    ensures forall i :: 0 <= i < |EN_RULES| ==> IsSuggestionList(EN_RULES[i].suggestions)
    ensures IsSuggestionList(VI_DEFAULTS) && IsSuggestionList(EN_DEFAULTS)
  {
  }

  /** First match wins: the earliest matching rule decides, whatever later
      rules match too. */
  lemma FirstMatchWins(responseContent: string, language: string, i: nat)
    requires i < |RulesFor(language)|
    requires Matches(RulesFor(language)[i], Lower(responseContent))
    requires forall j :: 0 <= j < i ==> !Matches(RulesFor(language)[j], Lower(responseContent))
    ensures GetContextSuggestions(responseContent, language) == RulesFor(language)[i].suggestions
  {
    var m := FirstMatch(RulesFor(language), Lower(responseContent));
    assert m.Some?;
    assert !(m.value < i) && !(i < m.value);
  }

  /** The default list comes back exactly when no keyword of any rule
      occurs in the lower-cased response. */
  lemma DefaultsIffNoMatch(responseContent: string, language: string)
    ensures GetContextSuggestions(responseContent, language) == DefaultsFor(language) <==>
      forall j :: 0 <= j < |RulesFor(language)| ==> !Matches(RulesFor(language)[j], Lower(responseContent))
  {
    DefaultsDifferFromRules();
  }

  /** No table entry offers the default list. */
  lemma DefaultsDifferFromRules()
    ensures forall i :: 0 <= i < |VI_RULES| ==> VI_RULES[i].suggestions != VI_DEFAULTS
    ensures forall i :: 0 <= i < |EN_RULES| ==> EN_RULES[i].suggestions != EN_DEFAULTS
  {
    forall i | 0 <= i < |VI_RULES| ensures VI_RULES[i].suggestions != VI_DEFAULTS {
      assert VI_RULES[i].suggestions[0][2] != VI_DEFAULTS[0][2] || VI_RULES[i].suggestions[0][0] != VI_DEFAULTS[0][0];
    }
    forall i | 0 <= i < |EN_RULES| ensures EN_RULES[i].suggestions != EN_DEFAULTS {
      assert EN_RULES[i].suggestions[0][0] != EN_DEFAULTS[0][0];
    }
  }

  /** Any language other than "vi" behaves exactly like "en". */
  lemma OtherLanguagesUseEnglish(responseContent: string, language: string)
    requires language != "vi"
    ensures GetContextSuggestions(responseContent, language) == GetContextSuggestions(responseContent, "en")
    ensures LanguageFlag(language) == US_FLAG
  {
  }

  /** "tổ chức" is a keyword of both the location rule and the APEC rule;
      the location rule comes first, so a Vietnamese response containing it
      never gets the APEC suggestions: it gets the location ones unless an
      event keyword occurs as well. */
  lemma OrganisedGoesToLocation(responseContent: string)
    requires Contains(Lower(responseContent), "tổ chức")
    ensures var r := GetContextSuggestions(responseContent, "vi");
      (r == VI_RULES[0].suggestions || r == VI_RULES[1].suggestions) &&
      r != VI_RULES[2].suggestions &&
      (!Matches(VI_RULES[0], Lower(responseContent)) ==> r == VI_RULES[1].suggestions)
  {
    var text := Lower(responseContent);
    assert VI_RULES[1].keywords[2] == "tổ chức";
    assert Matches(VI_RULES[1], text);
    if Matches(VI_RULES[0], text) {
      FirstMatchWins(responseContent, "vi", 0);
    } else {
      FirstMatchWins(responseContent, "vi", 1);
    }
    assert VI_RULES[0].suggestions[0][0] != VI_RULES[2].suggestions[0][0];
    assert VI_RULES[1].suggestions[0][0] != VI_RULES[2].suggestions[0][0];
  }

  /** An event keyword anywhere in a Vietnamese response yields the event
      suggestions, since the event rule is first. */
  lemma EventKeywordVi(responseContent: string)
    requires Contains(Lower(responseContent), "sự kiện")
    ensures GetContextSuggestions(responseContent, "vi") == VI_RULES[0].suggestions
  {
    assert VI_RULES[0].keywords[0] == "sự kiện";
    FirstMatchWins(responseContent, "vi", 0);
  }

  /** Matching is plain substring containment on the lower-cased response:
      "may" inside any word ("Mayor", "dismay") selects the English event
      suggestions. */
  lemma MayMatchesInsideWords(responseContent: string, language: string)
    requires language != "vi"
    requires Contains(Lower(responseContent), "may")
    ensures GetContextSuggestions(responseContent, language) == EN_RULES[0].suggestions
  {
    assert EN_RULES[0].keywords[2] == "may";
    FirstMatchWins(responseContent, language, 0);
  }

  /** A concrete instance: "The Mayor spoke." is about events. */
  lemma MayorIsAnEvent()
    ensures GetContextSuggestions("The Mayor spoke.", "en") == EN_RULES[0].suggestions
  {
    var text := Lower("The Mayor spoke.");
    assert text[4..7] == "may";
    assert OccursAt(text, "may", 4);
    MayMatchesInsideWords("The Mayor spoke.", "en");
  }
}

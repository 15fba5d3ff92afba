/** The language classifier: the registry of supported languages, the four script-family
    lists, and the first-match resolution of a `-l` token to the family whose dictionary,
    label lists and model directory the generated configuration uses. */
module Languages {
  import opened Outcomes

  /** `support_list`: language code to language name. */
  const SupportList: map<string, string> := map[
    "it" := "italian", "xi" := "spanish", "pu" := "portuguese", "ru" := "russian",
    "ar" := "arabic", "ta" := "tamil", "ug" := "uyghur", "fa" := "persian",
    "ur" := "urdu", "rs" := "serbian latin", "oc" := "occitan", "rsc" := "serbian cyrillic",
    "bg" := "bulgarian", "uk" := "ukranian", "be" := "belarusian", "te" := "telugu",
    "ka" := "kannada", "chinese_cht" := "chinese tradition", "hi" := "hindi",
    "mr" := "marathi", "ne" := "nepali"]

  const LatinLang: seq<string> := [
    "af", "az", "bs", "cs", "cy", "da", "de", "es", "et", "fr", "ga", "hr",
    "hu", "id", "is", "it", "ku", "la", "lt", "lv", "mi", "ms", "mt", "nl",
    "no", "oc", "pi", "pl", "pt", "ro", "rs_latin", "sk", "sl", "sq", "sv",
    "sw", "tl", "tr", "uz", "vi", "latin"]

  const ArabicLang: seq<string> := ["ar", "fa", "ug", "ur"]

  const CyrillicLang: seq<string> := [
    "ru", "rs_cyrillic", "be", "bg", "uk", "mn", "abq", "ady", "kbd", "ava",
    "dar", "inh", "che", "lbe", "lez", "tab", "cyrillic"]

  const DevanagariLang: seq<string> := [
    "hi", "mr", "ne", "bh", "mai", "ang", "bho", "mah", "sck", "new", "gom",
    "sa", "bgc", "devanagari"]

  /** `multi_lang`: the four family lists, concatenated. */
  const MultiLang: seq<string> := LatinLang + ArabicLang + CyrillicLang + DevanagariLang

  /** The names a family resolves to. */
  const Families: set<string> := {"latin", "arabic", "cyrillic", "devanagari"}

  /** The registry codes that belong to no family list, written out independently of the
      tables: each of them resolves to itself. */
  const RegistryOnly: set<string> := {"xi", "pu", "ta", "rs", "rsc", "te", "ka", "chinese_cht"}

  /** The first-match chain latin, arabic, cyrillic, devanagari; any other token is kept. */
  function Resolve(token: string): string
  {
    if token in LatinLang then "latin"
    else if token in ArabicLang then "arabic"
    else if token in CyrillicLang then "cyrillic"
    else if token in DevanagariLang then "devanagari"
    else token
  }

  /** Validate and resolve a token: accepted exactly when it is a registry code or in one
      of the family lists (case-sensitive, no normalisation); a rejection names the token. */
  function Classify(token: string): (r: Result<string>)
    ensures r.Ok? <==> token in SupportList || token in MultiLang
    ensures r.Err? ==> r.error == UnsupportedLanguage(token)
  {
    if token in SupportList || token in MultiLang then Ok(Resolve(token))
    else Err(UnsupportedLanguage(token))
  }

  /** `multi_lang` membership is membership in one of the four lists. */
  lemma MultiLangMembers(token: string)
    ensures token in MultiLang <==>
      token in LatinLang || token in ArabicLang || token in CyrillicLang || token in DevanagariLang
  {
  }

  /** Every accepted token resolves either to one of the four family names, or to itself
      when it is one of the registry-only codes; nothing else is possible. */
  lemma {:induction false} ClassifyRange(token: string)
    requires Classify(token).Ok?
    ensures Classify(token).value in Families ||
            (Classify(token).value == token && token in RegistryOnly)
  {
    if token !in MultiLang {
      assert token in SupportList;
      assert token in SupportList.Keys;
      assert SupportList.Keys == RegistryOnly + {"it", "ru", "ar", "ug", "fa", "ur", "oc",
        "bg", "uk", "be", "hi", "mr", "ne"};
    }
  }

  /** A registry code that is also a Latin code resolves to "latin" (first match wins):
      "oc" and "it" are both. */
  lemma ClassifyLatinRegistryCodes()
    ensures Classify("oc") == Ok("latin") && Classify("it") == Ok("latin")
  {
    assert LatinLang[25] == "oc" && LatinLang[15] == "it";
  }

  /** A token in none of the four family lists. */
  predicate InNoFamily(token: string)
  {
    token !in LatinLang && token !in ArabicLang && token !in CyrillicLang && token !in DevanagariLang
  }

  /** A registry code outside every family list resolves to itself. */
  lemma SelfResolving(token: string)
    requires token in SupportList && InNoFamily(token)
    ensures Classify(token) == Ok(token)
  {
  }

  lemma NoFamilyTa() ensures InNoFamily("ta") {}
  lemma NoFamilyRs() ensures InNoFamily("rs") {}
  lemma NoFamilyArabic() ensures InNoFamily("arabic") {}

  /** "ta" (Tamil) has no family: its dictionary is ta_dict.txt. */
  lemma ClassifyTamil()
    ensures Classify("ta") == Ok("ta")
  {
    NoFamilyTa();
    SelfResolving("ta");
  }

  /** "rs" is a registry code whose Latin-list entry is spelled "rs_latin": it is not
      resolved to "latin" but kept as "rs". */
  lemma ClassifySerbianLatin()
    ensures Classify("rs") == Ok("rs") && Classify("rs_latin") == Ok("latin")
  {
    NoFamilyRs();
    SelfResolving("rs");
    assert LatinLang[30] == "rs_latin";
  }

  /** The family names "latin", "cyrillic" and "devanagari" are accepted tokens that resolve
      to themselves. */
  lemma LatinNameResolves()
    ensures Classify("latin") == Ok("latin")
  {
    assert LatinLang[40] == "latin";
  }

  lemma CyrillicNameResolves()
    ensures Classify("cyrillic") == Ok("cyrillic")
  {
    assert CyrillicLang[16] == "cyrillic";
    assert "cyrillic" !in LatinLang && "cyrillic" !in ArabicLang;
  }

  lemma DevanagariNameResolves()
    ensures Classify("devanagari") == Ok("devanagari")
  {
    assert DevanagariLang[13] == "devanagari";
    assert "devanagari" !in LatinLang && "devanagari" !in ArabicLang && "devanagari" !in CyrillicLang;
  }

  /** "arabic" is in neither the Arabic list nor the registry, so the Arabic family cannot
      be requested by its own name. */
  lemma ArabicNameRejected()
    ensures Classify("arabic") == Err(UnsupportedLanguage("arabic"))
  {
    NoFamilyArabic();
    MultiLangMembers("arabic");
    assert "arabic" !in MultiLang;
  }

  /** Classification is stable: a resolved name, classified again, gives itself back, with
      the single exception of "arabic" (see ArabicNameRejected). */
  lemma {:induction false} ClassifyStable(token: string)
    requires Classify(token).Ok? && Classify(token).value != "arabic"
    ensures Classify(Classify(token).value) == Classify(token)
  {
    ClassifyRange(token);
    var f := Classify(token).value;
    if f == "latin" { LatinNameResolves(); }
    else if f == "cyrillic" { CyrillicNameResolves(); }
    else if f == "devanagari" { DevanagariNameResolves(); }
  }

  /** No Arabic-list code is also a Latin-list code. */
  lemma ArabicNotLatin(token: string)
    requires token in ArabicLang
    ensures token !in LatinLang
  {
  }

  /** First match wins: every code of a family list resolves to that family, whatever the
      registry says about it, because no code of a later list is in an earlier one. */
  lemma ClassifyFamily(token: string)
    ensures token in LatinLang ==> Classify(token) == Ok("latin")
    ensures token in ArabicLang ==> Classify(token) == Ok("arabic")
    ensures token in CyrillicLang ==> Classify(token) == Ok("cyrillic")
    ensures token in DevanagariLang ==> Classify(token) == Ok("devanagari")
  {
    MultiLangMembers(token);
    if token in ArabicLang {
      ArabicNotLatin(token);
    }
    if token in CyrillicLang {
      var i :| 0 <= i < |CyrillicLang| && CyrillicLang[i] == token;
      if i < 9 { CyrillicFirstMatchLow(i); } else { CyrillicFirstMatchHigh(i); }
    }
    if token in DevanagariLang {
      var i :| 0 <= i < |DevanagariLang| && DevanagariLang[i] == token;
      if i < 7 { DevanagariFirstMatchLow(i); } else { DevanagariFirstMatchHigh(i); }
    }
  }

  // Each code of the Cyrillic list is in no earlier list, and each code of the
  // Devanagari list in no earlier list, one code at a time.
  lemma FirstMatchRu() ensures "ru" !in LatinLang && "ru" !in ArabicLang { }
  lemma FirstMatchRsCyrillic() ensures "rs_cyrillic" !in LatinLang && "rs_cyrillic" !in ArabicLang { }
  lemma FirstMatchBe() ensures "be" !in LatinLang && "be" !in ArabicLang { }
  lemma FirstMatchBg() ensures "bg" !in LatinLang && "bg" !in ArabicLang { }
  lemma FirstMatchUk() ensures "uk" !in LatinLang && "uk" !in ArabicLang { }
  lemma FirstMatchMn() ensures "mn" !in LatinLang && "mn" !in ArabicLang { }
  lemma FirstMatchAbq() ensures "abq" !in LatinLang && "abq" !in ArabicLang { }
  lemma FirstMatchAdy() ensures "ady" !in LatinLang && "ady" !in ArabicLang { }
  lemma FirstMatchKbd() ensures "kbd" !in LatinLang && "kbd" !in ArabicLang { }
  lemma FirstMatchAva() ensures "ava" !in LatinLang && "ava" !in ArabicLang { }
  lemma FirstMatchDar() ensures "dar" !in LatinLang && "dar" !in ArabicLang { }
  lemma FirstMatchInh() ensures "inh" !in LatinLang && "inh" !in ArabicLang { }
  lemma FirstMatchChe() ensures "che" !in LatinLang && "che" !in ArabicLang { }
  lemma FirstMatchLbe() ensures "lbe" !in LatinLang && "lbe" !in ArabicLang { }
  lemma FirstMatchLez() ensures "lez" !in LatinLang && "lez" !in ArabicLang { }
  lemma FirstMatchTab() ensures "tab" !in LatinLang && "tab" !in ArabicLang { }
  lemma FirstMatchCyrillic() ensures "cyrillic" !in LatinLang && "cyrillic" !in ArabicLang { }
  lemma FirstMatchHi() ensures "hi" !in LatinLang && "hi" !in ArabicLang && "hi" !in CyrillicLang { }
  lemma FirstMatchMr() ensures "mr" !in LatinLang && "mr" !in ArabicLang && "mr" !in CyrillicLang { }
  lemma FirstMatchNe() ensures "ne" !in LatinLang && "ne" !in ArabicLang && "ne" !in CyrillicLang { }
  lemma FirstMatchBh() ensures "bh" !in LatinLang && "bh" !in ArabicLang && "bh" !in CyrillicLang { }
  lemma FirstMatchMai() ensures "mai" !in LatinLang && "mai" !in ArabicLang && "mai" !in CyrillicLang { }
  lemma FirstMatchAng() ensures "ang" !in LatinLang && "ang" !in ArabicLang && "ang" !in CyrillicLang { }
  lemma FirstMatchBho() ensures "bho" !in LatinLang && "bho" !in ArabicLang && "bho" !in CyrillicLang { }
  lemma FirstMatchMah() ensures "mah" !in LatinLang && "mah" !in ArabicLang && "mah" !in CyrillicLang { }
  lemma FirstMatchSck() ensures "sck" !in LatinLang && "sck" !in ArabicLang && "sck" !in CyrillicLang { }
  lemma FirstMatchNew() ensures "new" !in LatinLang && "new" !in ArabicLang && "new" !in CyrillicLang { }
  lemma FirstMatchGom() ensures "gom" !in LatinLang && "gom" !in ArabicLang && "gom" !in CyrillicLang { }
  lemma FirstMatchSa() ensures "sa" !in LatinLang && "sa" !in ArabicLang && "sa" !in CyrillicLang { }
  lemma FirstMatchBgc() ensures "bgc" !in LatinLang && "bgc" !in ArabicLang && "bgc" !in CyrillicLang { }
  lemma FirstMatchDevanagari() ensures "devanagari" !in LatinLang && "devanagari" !in ArabicLang && "devanagari" !in CyrillicLang { }

  /** The first half of the Cyrillic list meets no earlier list. */
  lemma CyrillicFirstMatchLow(i: nat)
    requires 0 <= i < 9
    ensures CyrillicLang[i] !in LatinLang && CyrillicLang[i] !in ArabicLang
  {
    if i == 0 { FirstMatchRu(); }
    else if i == 1 { FirstMatchRsCyrillic(); }
    else if i == 2 { FirstMatchBe(); }
    else if i == 3 { FirstMatchBg(); }
    else if i == 4 { FirstMatchUk(); }
    else if i == 5 { FirstMatchMn(); }
    else if i == 6 { FirstMatchAbq(); }
    else if i == 7 { FirstMatchAdy(); }
    else { FirstMatchKbd(); }
  }

  /** The second half of the Cyrillic list meets no earlier list. */
  lemma CyrillicFirstMatchHigh(i: nat)
    requires 9 <= i < 17
    ensures CyrillicLang[i] !in LatinLang && CyrillicLang[i] !in ArabicLang
  {
    if i == 9 { FirstMatchAva(); }
    else if i == 10 { FirstMatchDar(); }
    else if i == 11 { FirstMatchInh(); }
    else if i == 12 { FirstMatchChe(); }
    else if i == 13 { FirstMatchLbe(); }
    else if i == 14 { FirstMatchLez(); }
    else if i == 15 { FirstMatchTab(); }
    else { FirstMatchCyrillic(); }
  }

  /** The first half of the Devanagari list meets no earlier list. */
  lemma DevanagariFirstMatchLow(i: nat)
    requires 0 <= i < 7
    ensures DevanagariLang[i] !in LatinLang && DevanagariLang[i] !in ArabicLang && DevanagariLang[i] !in CyrillicLang
  {
    if i == 0 { FirstMatchHi(); }
    else if i == 1 { FirstMatchMr(); }
    else if i == 2 { FirstMatchNe(); }
    else if i == 3 { FirstMatchBh(); }
    else if i == 4 { FirstMatchMai(); }
    else if i == 5 { FirstMatchAng(); }
    else { FirstMatchBho(); }
  }

  /** The second half of the Devanagari list meets no earlier list. */
  lemma DevanagariFirstMatchHigh(i: nat)
    requires 7 <= i < 14
    ensures DevanagariLang[i] !in LatinLang && DevanagariLang[i] !in ArabicLang && DevanagariLang[i] !in CyrillicLang
  {
    if i == 7 { FirstMatchMah(); }
    else if i == 8 { FirstMatchSck(); }
    else if i == 9 { FirstMatchNew(); }
    else if i == 10 { FirstMatchGom(); }
    else if i == 11 { FirstMatchSa(); }
    else if i == 12 { FirstMatchBgc(); }
    else { FirstMatchDevanagari(); }
  }
}

/** Bilingual text lookup for Spot the Shape (js/i18n.js): the current
    language, the translation and shape-name tables with their fallbacks, and
    the positional `{i}` placeholders. */
module I18n {
  import opened Utils

  /** A table per language code, from key to text. */
  type Tables = map<string, map<string, string>>

  /** The language the module starts in. */
  const DEFAULT_LANG: string := "he"

  /** Whether pat occurs in s starting at index j. */
  predicate Occurs(s: string, pat: string, j: int)
  {
    0 <= j && j + |pat| <= |s| && s[j..j + |pat|] == pat
  }

  /** Whether i is where pat first occurs in s. */
  predicate FirstOccurrence(s: string, pat: string, i: int)
  {
    Occurs(s, pat, i) && forall j :: 0 <= j < i ==> !Occurs(s, pat, j)
  }

  /** The first index at or after `from` where pat occurs in s. */
  function FindFrom(s: string, pat: string, from: nat): (r: Option<nat>)
    ensures r.Some? ==> from <= r.value && Occurs(s, pat, r.value)
    ensures r.Some? ==> forall j :: from <= j < r.value ==> !Occurs(s, pat, j)
    ensures r.None? ==> forall j :: from <= j ==> !Occurs(s, pat, j)
    decreases |s| - from
  {
    if |s| < from + |pat| then None
    else if s[from..from + |pat|] == pat then Some(from)
    else FindFrom(s, pat, from + 1)
  }

  /** String.prototype.replace with a string pattern: the first occurrence of
      pat, if any, is replaced by val; everything else is kept. */
  function ReplaceFirst(s: string, pat: string, val: string): (r: string)
    ensures (forall j :: !Occurs(s, pat, j)) ==> r == s
    ensures forall i :: FirstOccurrence(s, pat, i) ==> r == s[..i] + val + s[i + |pat|..]
  {
    match FindFrom(s, pat, 0)
    case None => s
    case Some(i) => s[..i] + val + s[i + |pat|..]
  }

  /** Only the first occurrence is replaced: a later occurrence of pat is
      still there after the call, shifted by the change in length. */
  lemma {:induction false} ReplaceKeepsLater(s: string, pat: string, val: string, i: int, k: int)
    requires FirstOccurrence(s, pat, i)
    requires i + |pat| <= k && Occurs(s, pat, k)
    ensures var r := ReplaceFirst(s, pat, val); Occurs(r, pat, k - |pat| + |val|)
  {
    SpliceKeepsLater(s, pat, val, i, k);
  }

  /** The splice behind ReplaceKeepsLater, on plain sequences. */
  lemma {:induction false} SpliceKeepsLater(s: string, pat: string, val: string, i: int, k: int)
    requires Occurs(s, pat, i)
    requires i + |pat| <= k && Occurs(s, pat, k)
    ensures Occurs(s[..i] + val + s[i + |pat|..], pat, k - |pat| + |val|)
  {
    var tail := s[i + |pat|..];
    var r := s[..i] + val + tail;
    var m := k - |pat| + |val|;
    forall t | 0 <= t < |pat|
      ensures r[m + t] == pat[t]
    {
      assert r[m + t] == tail[k + t - i - |pat|];
      assert s[k..k + |pat|][t] == s[k + t];
    }
    assert r[m..m + |pat|] == pat;
    assert |r| == |s| - |pat| + |val|;
  }

  /** The number a string of decimal digits spells, most significant first. */
  function DigitsValue(s: string): nat
    requires forall k :: 0 <= k < |s| ==> '0' <= s[k] <= '9'
  {
    if s == [] then 0 else 10 * DigitsValue(s[..|s| - 1]) + (s[|s| - 1] as int - '0' as int)
  }

  /** The decimal digits of n: they read back as n, with no leading zero. */
  function Decimal(n: nat): (s: string)
    ensures 1 <= |s| && forall k :: 0 <= k < |s| ==> '0' <= s[k] <= '9'
    ensures DigitsValue(s) == n
    ensures 1 <= n ==> s[0] != '0'
  {
    var d := ['0' + ((n % 10) as char)];
    if n < 10 then d
    else
      var s := Decimal(n / 10) + d;
      assert s[..|s| - 1] == Decimal(n / 10);
      s
  }

  /** The placeholder argument i fills: `{i}`. */
  function Placeholder(i: nat): (p: string)
    ensures 3 <= |p| && p[0] == '{' && p[|p| - 1] == '}'
  {
    "{" + Decimal(i) + "}"
  }

  /** The arguments from index i on, each replacing the first occurrence of
      its own placeholder, in order. */
  function ApplyFrom(s: string, args: seq<string>, i: nat): string
    requires i <= |args|
    decreases |args| - i
  {
    if i == |args| then s else ApplyFrom(ReplaceFirst(s, Placeholder(i), args[i]), args, i + 1)
  }

  /** A template with no '{' in it comes out of the argument loop as it went
      in, whatever the arguments. */
  lemma {:induction false} NoPlaceholderUnchanged(s: string, args: seq<string>, i: nat)
    requires i <= |args|
    requires forall k :: 0 <= k < |s| ==> s[k] != '{'
    ensures ApplyFrom(s, args, i) == s
    decreases |args| - i
  {
    if i < |args| {
      var p := Placeholder(i);
      assert forall j :: !Occurs(s, p, j);
      NoPlaceholderUnchanged(s, args, i + 1);
    }
  }

  /** With one argument, a template naming {0} twice keeps the second. */
  lemma RepeatedPlaceholderExample()
    ensures ApplyFrom("{0} and {0}", ["7"], 0) == "7 and {0}"
  {
    var s := "{0} and {0}";
    assert Placeholder(0) == "{0}";
    assert Occurs(s, "{0}", 0);
    assert ReplaceFirst(s, "{0}", "7") == "7 and {0}";
  }

  /** The text for a key: the
      current language's text, else the English text, else the key itself; an
      empty text counts as missing. */
  function Lookup(tables: Tables, lang: string, key: string): (r: string)
    ensures lang in tables && key in tables[lang] && tables[lang][key] != "" ==> r == tables[lang][key]
    ensures !(lang in tables && key in tables[lang] && tables[lang][key] != "") ==>
      r == (if "en" in tables && key in tables["en"] && tables["en"][key] != "" then tables["en"][key] else key)
    ensures r != "" || key == ""
  {
    if lang in tables && key in tables[lang] && tables[lang][key] != "" then tables[lang][key]
    else if "en" in tables && key in tables["en"] && tables["en"][key] != "" then tables["en"][key]
    else key
  }

  /** ASCII upper-casing of one character. */
  function UpperChar(c: char): (u: char)
    ensures !('a' <= u <= 'z')
    ensures 'a' <= c <= 'z' ==> u as int == c as int - 32
    ensures !('a' <= c <= 'z') ==> u == c
  {
    if 'a' <= c <= 'z' then (c as int - 32) as char else c
  }

  /** toUpperCase, on ASCII letters. */
  function Upper(s: string): (u: string)
    ensures |u| == |s|
    ensures forall k :: 0 <= k < |s| ==> u[k] == UpperChar(s[k])
  {
    if s == [] then [] else [UpperChar(s[0])] + Upper(s[1..])
  }

  /** Upper-casing twice is upper-casing once. */
  lemma {:induction false} UpperIdempotent(s: string)
    ensures Upper(Upper(s)) == Upper(s)
  {
    var u := Upper(s);
    assert forall k :: 0 <= k < |u| ==> UpperChar(u[k]) == u[k];
  }

  /** shapeName(type): the table's name for the current language, else the
      type with its first '_' turned into a space, upper-cased. */
  function ShapeName(names: Tables, lang: string, shapeType: string): (r: string)
    ensures lang in names && shapeType in names[lang] && names[lang][shapeType] != "" ==> r == names[lang][shapeType]
    ensures !(lang in names && shapeType in names[lang] && names[lang][shapeType] != "") ==>
      r == Upper(ReplaceFirst(shapeType, "_", " "))
  {
    if lang in names && shapeType in names[lang] && names[lang][shapeType] != "" then names[lang][shapeType]
    else Upper(ReplaceFirst(shapeType, "_", " "))
  }

  /** The fallback name of a type with no '_' is the type upper-cased, as long
      as the type. */
  lemma {:induction false} FallbackWithoutUnderscore(shapeType: string)
    requires forall k :: 0 <= k < |shapeType| ==> shapeType[k] != '_'
    ensures ShapeName(map[], "en", shapeType) == Upper(shapeType)
    ensures |ShapeName(map[], "en", shapeType)| == |shapeType|
  {
    var pat := "_";
    assert |pat| == 1 && pat[0] == '_';
    forall j ensures !Occurs(shapeType, pat, j)
    {
      if 0 <= j && j + 1 <= |shapeType| {
        assert shapeType[j..j + 1][0] == shapeType[j];
      }
    }
    assert ReplaceFirst(shapeType, pat, " ") == shapeType;
  }

  /** toggleLang's choice: 'he' becomes 'en', anything else 'he'. */
  function Toggled(lang: string): (r: string)
    ensures r == "en" || r == "he"
    ensures r != lang || lang != "he"
  {
    if lang == "he" then "en" else "he"
  }

  /** Two toggles restore exactly the two languages of the tables. */
  lemma {:induction false} ToggleTwice(lang: string)
    ensures Toggled(Toggled(lang)) == lang <==> lang == "he" || lang == "en"
  {
    if lang != "he" && lang != "en" {
      assert Toggled(lang) == "he";
    }
  }

  /** The module state of i18n.js: the current language and the two tables. */
  class Localizer {
    var currentLang: string
    const translations: Tables
    const shapeNames: Tables

    constructor(translations: Tables, shapeNames: Tables)
      ensures currentLang == DEFAULT_LANG
      ensures this.translations == translations && this.shapeNames == shapeNames
    {
      currentLang := DEFAULT_LANG;
      this.translations := translations;
      this.shapeNames := shapeNames;
    }

    /** initLang(): `saved` is the stored language, if storage had one; only
        'en' and 'he' are adopted. */
    method InitLang(saved: Option<string>)
      modifies this`currentLang
      ensures currentLang == (if saved == Some("en") || saved == Some("he") then saved.value else old(currentLang))
    {
      if saved.Some? && (saved.value == "en" || saved.value == "he") {
        currentLang := saved.value;
      }
    }

    function GetLang(): (lang: string)
      reads this`currentLang
      ensures lang == currentLang
    {
      currentLang
    }

    /** setLang(lang): any string is taken as it is. */
    method SetLang(lang: string)
      modifies this`currentLang
      ensures currentLang == lang
    {
      currentLang := lang;
    }

    /** toggleLang(): switches between the two languages and returns the new one. */
    method ToggleLang() returns (lang: string)
      modifies this`currentLang
      ensures currentLang == Toggled(old(currentLang)) && lang == currentLang
    {
      SetLang(if currentLang == "he" then "en" else "he");
      lang := currentLang;
    }

    /** t(key, ...args): the looked-up text with each argument filling its
        placeholder in turn. */
    method T(key: string, args: seq<string>) returns (str: string)
      ensures str == ApplyFrom(Lookup(translations, currentLang, key), args, 0)
      ensures args == [] ==> str == Lookup(translations, currentLang, key)
    {
      str := if currentLang in translations && key in translations[currentLang] && translations[currentLang][key] != ""
        then translations[currentLang][key]
        else if "en" in translations && key in translations["en"] && translations["en"][key] != ""
        then translations["en"][key]
        else key;
      ghost var template := str;
      var i := 0;
      while i < |args|
        invariant 0 <= i <= |args|
        invariant ApplyFrom(str, args, i) == ApplyFrom(template, args, 0)
      {
        str := ReplaceFirst(str, Placeholder(i), args[i]);
        i := i + 1;
      }
    }

    function ShapeNameOf(shapeType: string): (r: string)
      reads this`currentLang
      ensures r == ShapeName(shapeNames, currentLang, shapeType)
    {
      if currentLang in shapeNames && shapeType in shapeNames[currentLang] && shapeNames[currentLang][shapeType] != ""
      then shapeNames[currentLang][shapeType]
      else Upper(ReplaceFirst(shapeType, "_", " "))
    }
  }
}

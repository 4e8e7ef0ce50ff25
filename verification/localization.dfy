/**
 * Translation lookup (`LocalizationService.translate`): the language falls back to the
 * configured default, a missing translation falls back to the key itself, and each
 * parameter replaces the first `{name}` placeholder in the text. The translation tables
 * are given; reading them from the `locales` directory is not part of this model.
 */
module Localization {
  import opened Wrappers
  import Text

  /** The loaded translation tables (language -> key -> text) and the default language. */
  datatype Catalog = Catalog(translations: map<string, map<string, string>>, defaultLanguage: string)

  /** One entry of the `params` object, its value already rendered with `toString()`;
      a parameter list is in `Object.keys` order. */
  datatype Param = Param(name: string, value: string)

  /** `language || this.defaultLanguage`. */
  function EffectiveLanguage(cat: Catalog, language: Option<string>): (lang: string)
    ensures language.Some? && language.value != "" ==> lang == language.value
    ensures language.None? || language.value == "" ==> lang == cat.defaultLanguage
  {
    if language.Some? && language.value != "" then language.value else cat.defaultLanguage
  }

  /** The table entry for `key` in `lang`, when there is a non-empty one. */
  predicate HasEntry(cat: Catalog, lang: string, key: string) {
    lang in cat.translations && key in cat.translations[lang] && cat.translations[lang][key] != ""
  }

  /** `this.translations[lang]?.[key] || key`. */
  function Lookup(cat: Catalog, key: string, language: Option<string>): (r: string)
    ensures HasEntry(cat, EffectiveLanguage(cat, language), key) ==>
              r == cat.translations[EffectiveLanguage(cat, language)][key]
    ensures !HasEntry(cat, EffectiveLanguage(cat, language), key) ==> r == key
  {
    var lang := EffectiveLanguage(cat, language);
    if lang in cat.translations && key in cat.translations[lang] && cat.translations[lang][key] != ""
    then cat.translations[lang][key]
    else key
  }

  function Placeholder(name: string): string {
    "{" + name + "}"
  }

  /** Applying the parameters one after the other, in order, each to the text left by the previous one. */
  function Substitute(text: string, params: seq<Param>): string
    decreases |params|
  {
    if params == [] then text
    else Substitute(Text.ReplaceFirst(text, Placeholder(params[0].name), params[0].value), params[1..])
  }

  /** What `translate(key, language, params)` returns. */
  function Translation(cat: Catalog, key: string, language: Option<string>, params: seq<Param>): string {
    Substitute(Lookup(cat, key, language), params)
  }

  /** `translate`: the lookup, then the loop that rewrites the local `translation` once per parameter. */
  method Translate(cat: Catalog, key: string, language: Option<string>, params: seq<Param>)
    returns (translation: string)
    ensures translation == Translation(cat, key, language, params)
  {
    translation := Lookup(cat, key, language);
    for i := 0 to |params|
      invariant Substitute(translation, params[i..]) == Translation(cat, key, language, params)
    {
      assert params[i..][1..] == params[i + 1..];
      translation := Text.ReplaceFirst(translation, Placeholder(params[i].name), params[i].value);
    }
  }

  /** Without parameters the result is exactly the looked-up text. */
  lemma NoParamsIsLookup(cat: Catalog, key: string, language: Option<string>)
    ensures Translation(cat, key, language, []) == Lookup(cat, key, language)
  {
  }

  /** A missing language, a missing key or an empty entry all give the key back. */
  lemma MissingEntryGivesKey(cat: Catalog, key: string, language: Option<string>)
    requires !HasEntry(cat, EffectiveLanguage(cat, language), key)
    ensures Translation(cat, key, language, []) == key
  {
  }

  /** Parameters apply in list order: the last one acts on what the others produced. */
  lemma {:induction false} SubstituteLast(text: string, params: seq<Param>, p: Param)
    ensures Substitute(text, params + [p]) ==
            Text.ReplaceFirst(Substitute(text, params), Placeholder(p.name), p.value)
    decreases |params|
  {
    if params != [] {
      var next := Text.ReplaceFirst(text, Placeholder(params[0].name), params[0].value);
      assert (params + [p])[1..] == params[1..] + [p];
      SubstituteLast(next, params[1..], p);
    }
  }

  /** Parameters whose placeholders do not occur in the text leave it unchanged. */
  lemma {:induction false} AbsentPlaceholdersUntouched(text: string, params: seq<Param>)
    requires forall k :: 0 <= k < |params| ==> !Text.Contains(text, Placeholder(params[k].name))
    ensures Substitute(text, params) == text
    decreases |params|
  {
    if params != [] {
      assert !Text.Contains(text, Placeholder(params[0].name));
      AbsentPlaceholdersUntouched(text, params[1..]);
    }
  }

  /** A single parameter replaces the first occurrence of its placeholder and nothing else. */
  lemma {:induction false} OneParamReplacesFirstOccurrence(text: string, p: Param, i: nat)
    requires Text.OccursAt(text, Placeholder(p.name), i)
    requires forall j: nat :: j < i ==> !Text.OccursAt(text, Placeholder(p.name), j)
    ensures Substitute(text, [p]) == text[..i] + p.value + text[i + |Placeholder(p.name)|..]
  {
    var ph := Placeholder(p.name);
    assert Text.IndexOf(text, ph) == Some(i) by {
      assert i <= |text| && Text.OccursAt(text, ph, i);
    }
    assert [p][1..] == [];
  }

  /** A name free of braces, so that its placeholder is delimited by its own braces. */
  predicate Braceless(name: string) {
    forall k :: 0 <= k < |name| ==> name[k] != '{' && name[k] != '}'
  }

  /** The characters of an occurrence of `{name}` starting at `i`. */
  lemma PlaceholderAt(text: string, name: string, i: nat)
    requires Text.OccursAt(text, Placeholder(name), i)
    ensures i + |name| + 2 <= |text|
    ensures text[i] == '{' && text[i + 1 + |name|] == '}'
    ensures forall p :: i < p < i + 1 + |name| ==> text[p] == name[p - i - 1]
  {
    var ph := Placeholder(name);
    assert text[i..i + |ph|] == ph;
    forall k | 0 <= k < |ph| ensures text[i + k] == ph[k] {
      assert text[i..i + |ph|][k] == text[i + k];
    }
    assert ph[0] == '{' && ph[|name| + 1] == '}';
    forall p | i < p < i + 1 + |name| ensures text[p] == name[p - i - 1] {
      assert ph[p - i] == name[p - i - 1];
    }
  }

  /** Two occurrences of placeholders of different brace-free names never overlap. */
  lemma PlaceholdersApart(text: string, m: string, n: string, i: nat, j: nat)
    requires Braceless(m) && Braceless(n) && m != n
    requires Text.OccursAt(text, Placeholder(m), i) && Text.OccursAt(text, Placeholder(n), j)
    ensures j + |n| + 2 <= i || i + |m| + 2 <= j
  {
    PlaceholderAt(text, m, i);
    PlaceholderAt(text, n, j);
    SameSpanSameName(text, m, n, i, j);
  }

  /** Placeholders of equal length at the same place have the same name. */
  lemma SameSpanSameName(text: string, m: string, n: string, i: nat, j: nat)
    requires Text.OccursAt(text, Placeholder(m), i) && Text.OccursAt(text, Placeholder(n), j)
    ensures i == j && |m| == |n| ==> m == n
  {
    if i == j && |m| == |n| {
      PlaceholderAt(text, m, i);
      PlaceholderAt(text, n, j);
      forall k | 0 <= k < |m| ensures m[k] == n[k] {
        assert text[i + 1 + k] == m[k];
      }
    }
  }

  /** An occurrence outside the replaced span `[i, i + len)` is kept, shifted when it lies after it. */
  lemma OccurrenceOutsideReplace(text: string, i: nat, len: nat, value: string, pat: string, j: nat)
    requires i + len <= |text| && Text.OccursAt(text, pat, j)
    requires j + |pat| <= i || i + len <= j
    ensures Text.Contains(text[..i] + value + text[i + len..], pat)
  {
    var r := text[..i] + value + text[i + len..];
    var j' := if j + |pat| <= i then j else j - len + |value|;
    forall k | j' <= k < j' + |pat| ensures r[k] == text[k - j' + j] {
    }
    assert r[j'..j' + |pat|] == text[j..j + |pat|];
    assert j' <= |r| && Text.OccursAt(r, pat, j');
  }

  /** The first occurrence of `pat`, when there is one, is what `ReplaceFirst` replaces. */
  lemma ReplaceFirstAt(text: string, pat: string, rep: string, i: nat)
    requires Text.IndexOf(text, pat) == Some(i)
    ensures i + |pat| <= |text|
    ensures Text.ReplaceFirst(text, pat, rep) == text[..i] + rep + text[i + |pat|..]
  {
  }

  /** Replacing the first `{m}` keeps some occurrence of `{n}` for another brace-free name. */
  lemma PlaceholderSurvivesReplace(text: string, m: string, value: string, n: string)
    requires Braceless(m) && Braceless(n) && m != n
    requires Text.Contains(text, Placeholder(n))
    ensures Text.Contains(Text.ReplaceFirst(text, Placeholder(m), value), Placeholder(n))
  {
    var pm, pn := Placeholder(m), Placeholder(n);
    var j: nat :| j <= |text| && Text.OccursAt(text, pn, j);
    var idx := Text.IndexOf(text, pm);
    if idx.Some? {
      ReplaceFirstAt(text, pm, value, idx.value);
      PlaceholdersApart(text, m, n, idx.value, j);
      OccurrenceOutsideReplace(text, idx.value, |pm|, value, pn, j);
    }
  }

  /** A placeholder that no parameter names stays in the text: substituting parameters with
      other brace-free names never removes it. */
  lemma {:induction false} UnmatchedPlaceholderSurvives(text: string, n: string, params: seq<Param>)
    requires Braceless(n) && Text.Contains(text, Placeholder(n))
    requires forall k :: 0 <= k < |params| ==> Braceless(params[k].name) && params[k].name != n
    ensures Text.Contains(Substitute(text, params), Placeholder(n))
    decreases |params|
  {
    if params != [] {
      PlaceholderSurvivesReplace(text, params[0].name, params[0].value, n);
      UnmatchedPlaceholderSurvives(
        Text.ReplaceFirst(text, Placeholder(params[0].name), params[0].value), n, params[1..]);
    }
  }
}

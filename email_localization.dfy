/**
 * Choosing the localisation of an email: the text of a localised entity
 * for a locale, the template file for a locale, and sending one email per
 * locale to the users who prefer it. Existing files are the set `files`;
 * the sending callback is the function `execute`, and the calls made to it
 * are returned in order.
 */
module EmailLocalization {
  import opened Wrappers
  import opened PhpArray

  const CZECH_LOCALE := "cs"
  const DEFAULT_LOCALE := "en"
  /**
   * The literal text the locale replaces in a template path: the source's
   * pattern "[{locale}]" is a regular expression delimited by the brackets,
   * and a brace that starts no repetition count matches itself.
   */
  const LOCALE_PLACEHOLDER := "{locale}"

  /** One localisation of an entity: its locale and its content. */
  datatype Localized<T> = Localized(locale: string, text: T)

  /** InvalidStateException("Missing email template for ..."), carrying the template path. */
  datatype TemplateError = MissingTemplate(templatePath: string)

  /** One call of the sending callback: the users, their locale and the template path. */
  datatype Call<U> = Call(users: seq<U>, locale: string, template: string)

  /**
   * `getLocalization`: the first text in the requested locale; failing
   * that, the last text in the default locale; failing that, the first
   * text, and None for no texts.
   */
  method GetLocalization<T>(locale: string, texts: seq<Localized<T>>) returns (r: Option<Localized<T>>)
    ensures r.Some? <==> texts != []
    ensures (exists i :: 0 <= i < |texts| && texts[i].locale == locale) ==>
              exists i :: 0 <= i < |texts| && r == Some(texts[i]) && texts[i].locale == locale &&
                          forall j :: 0 <= j < i ==> texts[j].locale != locale
    ensures (forall i :: 0 <= i < |texts| ==> texts[i].locale != locale) &&
            (exists i :: 0 <= i < |texts| && texts[i].locale == DEFAULT_LOCALE) ==>
              exists i :: 0 <= i < |texts| && r == Some(texts[i]) && texts[i].locale == DEFAULT_LOCALE &&
                          forall j :: i < j < |texts| ==> texts[j].locale != DEFAULT_LOCALE
    ensures texts != [] && (forall i :: 0 <= i < |texts| ==> texts[i].locale != locale && texts[i].locale != DEFAULT_LOCALE) ==>
              r == Some(texts[0])
  {
    var defaultText: Option<Localized<T>> := None;
    ghost var at := 0;
    for k := 0 to |texts|
      invariant forall j :: 0 <= j < k ==> texts[j].locale != locale
      invariant defaultText.None? <==> forall j :: 0 <= j < k ==> texts[j].locale != DEFAULT_LOCALE
      invariant defaultText.Some? ==> at < k && defaultText == Some(texts[at]) && texts[at].locale == DEFAULT_LOCALE &&
                                      forall j :: at < j < k ==> texts[j].locale != DEFAULT_LOCALE
    {
      if texts[k].locale == locale {
        return Some(texts[k]);
      }
      if texts[k].locale == DEFAULT_LOCALE {
        defaultText := Some(texts[k]);
        at := k;
      }
    }
    if defaultText.Some? {
      return defaultText;
    }
    return if texts != [] then Some(texts[0]) else None;
  }

  /** Every occurrence of `pattern` in `s`, left to right, replaced by `replacement`. */
  function ReplaceAll(s: string, pattern: string, replacement: string): string
    requires pattern != []
  {
    if |s| < |pattern| then s
    else if s[..|pattern|] == pattern then replacement + ReplaceAll(s[|pattern|..], pattern, replacement)
    else [s[0]] + ReplaceAll(s[1..], pattern, replacement)
  }

  /** `pattern` occurs in `s` at position `i`. */
  predicate OccursAt(s: string, pattern: string, i: nat) {
    i + |pattern| <= |s| && s[i..i + |pattern|] == pattern
  }

  /** A path without the placeholder names the same template for every locale. */
  lemma {:induction false} ReplaceAbsent(s: string, pattern: string, replacement: string)
    requires pattern != []
    requires forall i: nat :: !OccursAt(s, pattern, i)
    ensures ReplaceAll(s, pattern, replacement) == s
  {
    if |s| >= |pattern| {
      assert !OccursAt(s, pattern, 0);
      forall i: nat ensures !OccursAt(s[1..], pattern, i) {
        assert !OccursAt(s, pattern, i + 1);
        if i + |pattern| <= |s[1..]| {
          assert s[1..][i..i + |pattern|] == s[i + 1..i + 1 + |pattern|];
        }
      }
      ReplaceAbsent(s[1..], pattern, replacement);
      assert s == [s[0]] + s[1..];
    }
  }

  /**
   * A pattern that occurs once, with its first character nowhere else, is
   * replaced once: the text around it is kept.
   */
  lemma {:induction false} ReplaceOnce(a: string, pattern: string, b: string, replacement: string)
    requires pattern != [] && pattern[0] !in a && pattern[0] !in b
    ensures ReplaceAll(a + pattern + b, pattern, replacement) == a + replacement + b
  {
    var s := a + pattern + b;
    if a == [] {
      assert s[..|pattern|] == pattern && s[|pattern|..] == b;
      forall i: nat ensures !OccursAt(b, pattern, i) {
        if i + |pattern| <= |b| {
          assert b[i..i + |pattern|][0] == b[i];
        }
      }
      ReplaceAbsent(b, pattern, replacement);
    } else {
      assert s[..|pattern|][0] == a[0];
      ReplaceOnce(a[1..], pattern, b, replacement);
      assert s[1..] == a[1..] + pattern + b;
    }
  }

  /** The template path for `locale`. */
  function LocalePath(templatePath: string, locale: string): string {
    ReplaceAll(templatePath, LOCALE_PLACEHOLDER, locale)
  }

  /** A template path with one placeholder, and no other brace, names the locale in its place. */
  lemma LocalePathOf(prefix: string, suffix: string, locale: string)
    requires '{' !in prefix && '{' !in suffix
    ensures LocalePath(prefix + LOCALE_PLACEHOLDER + suffix, locale) == prefix + locale + suffix
  {
    ReplaceOnce(prefix, LOCALE_PLACEHOLDER, suffix, locale);
  }

  /**
   * `getTemplate`: the path for the locale when that file exists, else the
   * path for the default locale when that one exists, else an error.
   */
  function GetTemplate(locale: string, templatePath: string, files: set<string>): (r: Result<string, TemplateError>)
    ensures r.Success? ==> r.value in files
    ensures LocalePath(templatePath, locale) in files ==> r == Success(LocalePath(templatePath, locale))
    ensures LocalePath(templatePath, locale) !in files ==>
              r == if LocalePath(templatePath, DEFAULT_LOCALE) in files then Success(LocalePath(templatePath, DEFAULT_LOCALE))
                   else Failure(MissingTemplate(templatePath))
  {
    var template := LocalePath(templatePath, locale);
    if template in files then Success(template)
    else
      var fallback := LocalePath(templatePath, DEFAULT_LOCALE);
      if fallback in files then Success(fallback) else Failure(MissingTemplate(templatePath))
  }

  /** The users among the first `n` whose language is `l`, in order. */
  function UsersWith<U>(users: seq<U>, lang: U -> string, l: string, n: nat): (r: seq<U>)
    requires n <= |users|
    ensures forall u :: u in r ==> u in users[..n] && lang(u) == l
  {
    if n == 0 then []
    else UsersWith(users, lang, l, n - 1) + (if lang(users[n - 1]) == l then [users[n - 1]] else [])
  }

  /** The grouping of `sendLocalizedEmail` after the first `n` users: language to its users. */
  function GroupsOf<U>(users: seq<U>, lang: U -> string, n: nat): Dict<string, seq<U>>
    requires n <= |users|
  {
    if n == 0 then []
    else
      var groups := GroupsOf(users, lang, n - 1);
      var l := lang(users[n - 1]);
      Put(groups, l, Get(groups, l).GetOr([]) + [users[n - 1]])
  }

  /**
   * Each language present among the users has exactly one group, holding
   * exactly the users with that language in their order; no other group
   * exists.
   */
  lemma {:induction false} GroupsAreByLanguage<U>(users: seq<U>, lang: U -> string, n: nat, l: string)
    requires n <= |users|
    ensures UniqueKeys(GroupsOf(users, lang, n))
    ensures Get(GroupsOf(users, lang, n), l) ==
            if UsersWith(users, lang, l, n) == [] then None else Some(UsersWith(users, lang, l, n))
  {
    if n > 0 {
      var groups := GroupsOf(users, lang, n - 1);
      var l' := lang(users[n - 1]);
      GroupsAreByLanguage(users, lang, n - 1, l);
      GroupsAreByLanguage(users, lang, n - 1, l');
      var group := Get(groups, l').GetOr([]) + [users[n - 1]];
      assert group == UsersWith(users, lang, l', n);
      PutUnique(groups, l', group);
      GetPut(groups, l', group, l);
      if l != l' {
        assert UsersWith(users, lang, l, n) == UsersWith(users, lang, l, n - 1);
      }
    }
  }

  /** A group exists for a language exactly when some user prefers it. */
  lemma GroupKeys<U>(users: seq<U>, lang: U -> string, l: string)
    ensures l in Keys(GroupsOf(users, lang, |users|)) <==> exists i :: 0 <= i < |users| && lang(users[i]) == l
  {
    GroupsAreByLanguage(users, lang, |users|, l);
    GetIn(GroupsOf(users, lang, |users|), l);
    UsersWithPresent(users, lang, l, |users|);
  }

  lemma {:induction false} UsersWithPresent<U>(users: seq<U>, lang: U -> string, l: string, n: nat)
    requires n <= |users|
    ensures UsersWith(users, lang, l, n) != [] <==> exists i :: 0 <= i < n && lang(users[i]) == l
  {
    if n > 0 {
      UsersWithPresent(users, lang, l, n - 1);
    }
  }

  /**
   * The grouping loop of `sendLocalizedEmail`: each user is appended to the
   * group of their default language, a new language opening a new group.
   */
  method GroupByLanguage<U>(users: seq<U>, lang: U -> string) returns (groups: Dict<string, seq<U>>)
    ensures groups == GroupsOf(users, lang, |users|)
  {
    groups := [];
    for i := 0 to |users|
      invariant groups == GroupsOf(users, lang, i)
    {
      var l := lang(users[i]);
      var group: seq<U> := [];
      if Get(groups, l).Some? {
        group := Get(groups, l).value;
      }
      groups := Put(groups, l, group + [users[i]]);
    }
  }

  /**
   * `sendLocalizedEmail`: one call per language group in order of first
   * appearance, with the group's users and template, made whatever the
   * earlier calls returned; true exactly when every call returned true.
   * A group without a template stops the sending with an error.
   */
  method SendLocalizedEmail<U>(users: seq<U>, lang: U -> string, templatePath: string, files: set<string>,
                               execute: Call<U> -> bool)
    returns (r: Result<bool, TemplateError>, calls: seq<Call<U>>)
    ensures var groups := GroupsOf(users, lang, |users|);
            |calls| <= |groups| &&
            (forall i :: 0 <= i < |calls| ==>
               calls[i].users == groups[i].1 && calls[i].locale == groups[i].0 &&
               GetTemplate(groups[i].0, templatePath, files) == Success(calls[i].template)) &&
            (r.Success? ==> |calls| == |groups| && (r.value <==> forall i :: 0 <= i < |calls| ==> execute(calls[i]))) &&
            (r.Failure? ==> |calls| < |groups| && GetTemplate(groups[|calls|].0, templatePath, files) == Failure(r.error))
  {
    var groups := GroupByLanguage(users, lang);
    var result := true;
    calls := [];
    for i := 0 to |groups|
      invariant |calls| == i
      invariant forall k :: 0 <= k < i ==>
                  calls[k].users == groups[k].1 && calls[k].locale == groups[k].0 &&
                  GetTemplate(groups[k].0, templatePath, files) == Success(calls[k].template)
      invariant result <==> forall k :: 0 <= k < i ==> execute(calls[k])
    {
      var template := GetTemplate(groups[i].0, templatePath, files);
      if template.Failure? {
        return Failure(template.error), calls;
      }
      var call := Call(groups[i].1, groups[i].0, template.value);
      calls := calls + [call];
      if !execute(call) {
        result := false;
      }
    }
    r := Success(result);
  }
}

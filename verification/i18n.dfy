/** The language state (state/language_state.py): the current locale and a table of
    translation tables, with lookups that fall back to the Korean table for an unknown locale
    and to the key itself for an unknown key, followed by `str.format` substitution. */
module I18n {
  import opened Wrappers
  import opened Strs

  type Table = map<string, string>
  type Translations = map<string, Table>

  /** `lang.tr_str(key, **kwargs)` as a handler sees it: the text for a key and its arguments in
      the current language. Handlers take it as a parameter. */
  type Translator = (string, map<string, string>) -> string

  /** The locale the page starts in, and the fallback table. */
  const DefaultLocale := "ko"

  /** `translations.get(locale, translations["ko"])` */
  function TableFor(translations: Translations, locale: string): Table
    requires DefaultLocale in translations
  {
    if locale in translations then translations[locale] else translations[DefaultLocale]
  }

  /** Prefixing a successful result; an error passes through. */
  function Prepend(p: string, r: Result<string>): Result<string> {
    match r
    case Ok(v) => Ok(p + v)
    case Err(e) => Err(e)
  }

  /** `template.format(**args)` for templates whose fields are plain names: `{{` and `}}` stand for
      single braces, `{name}` for the argument `name`; an unknown name, an empty (positional)
      field or an unmatched brace is the error `format` raises. */
  function Format(template: string, args: map<string, string>): Result<string>
    decreases |template|
  {
    if template == [] then Ok("")
    else if template[0] == '{' then
      if |template| >= 2 && template[1] == '{' then Prepend("{", Format(template[2..], args))
      else
        match IndexOf(template[1..], '}')
        case None => Err("Single '{' encountered in format string")
        case Some(j) =>
          var name := template[1..j + 1];
          if name == "" then Err("Replacement index 0 out of range for positional args tuple")
          else if name !in args then Err("KeyError: " + name)
          else Prepend(args[name], Format(template[j + 2..], args))
    else if template[0] == '}' then
      if |template| >= 2 && template[1] == '}' then Prepend("}", Format(template[2..], args))
      else Err("Single '}' encountered in format string")
    else Prepend([template[0]], Format(template[1..], args))
  }

  predicate NoBraces(s: string) {
    '{' !in s && '}' !in s
  }

  /** Text without braces is copied unchanged. */
  lemma {:induction false} FormatPrefix(p: string, rest: string, args: map<string, string>)
    requires NoBraces(p)
    ensures Format(p + rest, args) == Prepend(p, Format(rest, args))
  {
    if p == [] {
      assert p + rest == rest;
      match Format(rest, args) {
        case Ok(v) => assert p + v == v;
        case Err(_) =>
      }
    } else {
      assert (p + rest)[1..] == p[1..] + rest;
      assert (p + rest)[0] == p[0];
      assert p[0] in p;
      FormatPrefix(p[1..], rest, args);
      match Format(rest, args) {
        case Ok(v) => assert [p[0]] + (p[1..] + v) == p + v;
        case Err(_) =>
      }
    }
  }

  lemma FormatPlain(s: string, args: map<string, string>)
    requires NoBraces(s)
    ensures Format(s, args) == Ok(s)
  {
    FormatPrefix(s, "", args);
    assert s + "" == s;
  }

  /** A `{name}` field is replaced by its argument. */
  lemma FormatField(name: string, rest: string, args: map<string, string>)
    requires name != [] && NoBraces(name) && name in args
    ensures Format("{" + name + "}" + rest, args) == Prepend(args[name], Format(rest, args))
  {
    var t := "{" + name + "}" + rest;
    assert t[1..] == name + "}" + rest;
    assert (name + "}" + rest)[|name|] == '}';
    assert (name + "}" + rest)[..|name|] == name;
    assert IndexOf(t[1..], '}') == Some(|name|);
    assert t[1..|name| + 1] == name;
    assert t[|name| + 2..] == rest;
  }

  /** A field whose name has no argument makes `format` fail. */
  lemma FormatMissingArgument(name: string, rest: string, args: map<string, string>)
    requires name != [] && NoBraces(name) && name !in args
    ensures Format("{" + name + "}" + rest, args).Err?
  {
    var t := "{" + name + "}" + rest;
    assert t[1..] == name + "}" + rest;
    assert (name + "}" + rest)[|name|] == '}';
    assert (name + "}" + rest)[..|name|] == name;
    assert IndexOf(t[1..], '}') == Some(|name|);
    assert t[1..|name| + 1] == name;
  }

  /** Text and a field in front of the rest: the text and the field's value come first. */
  lemma FormatLeadingField(p: string, f: string, rest: string, args: map<string, string>)
    requires NoBraces(p) && f != [] && NoBraces(f) && f in args
    ensures Format(p + "{" + f + "}" + rest, args) == Prepend(p + args[f], Format(rest, args))
  {
    var tail := "{" + f + "}" + rest;
    FormatField(f, rest, args);
    FormatPrefix(p, tail, args);
    assert p + "{" + f + "}" + rest == p + tail;
    match Format(rest, args) {
      case Ok(v) => assert p + (args[f] + v) == p + args[f] + v;
      case Err(_) =>
    }
  }

  /** Text, one field, text: the field's value between the two texts. */
  lemma FormatOneField(p1: string, f: string, p2: string, args: map<string, string>)
    requires NoBraces(p1) && NoBraces(p2)
    requires f != [] && NoBraces(f) && f in args
    ensures Format(p1 + "{" + f + "}" + p2, args) == Ok(p1 + args[f] + p2)
  {
    FormatLeadingField(p1, f, p2, args);
    FormatPlain(p2, args);
  }

  /** A two-field template such as `"리서치 완료 ({done}/{total})"` gets both values in place. */
  lemma FormatTwoFields(p1: string, f1: string, p2: string, f2: string, p3: string, args: map<string, string>)
    requires NoBraces(p1) && NoBraces(p2) && NoBraces(p3)
    requires f1 != [] && NoBraces(f1) && f1 in args
    requires f2 != [] && NoBraces(f2) && f2 in args
    ensures Format(p1 + "{" + f1 + "}" + p2 + "{" + f2 + "}" + p3, args)
         == Ok(p1 + args[f1] + p2 + args[f2] + p3)
  {
    var rest := p2 + "{" + f2 + "}" + p3;
    FormatLeadingField(p1, f1, rest, args);
    FormatOneField(p2, f2, p3, args);
    assert p1 + "{" + f1 + "}" + p2 + "{" + f2 + "}" + p3 == p1 + "{" + f1 + "}" + rest;
    assert p1 + args[f1] + (p2 + args[f2] + p3) == p1 + args[f1] + p2 + args[f2] + p3;
  }

  /** `tr_str(key, **kwargs)` for a locale. */
  function TrStr(translations: Translations, locale: string, key: string, args: map<string, string>): Result<string>
    requires DefaultLocale in translations
  {
    var table := TableFor(translations, locale);
    Format(if key in table then table[key] else key, args)
  }

  /** An unknown locale reads the Korean table. */
  lemma TrStrUnknownLocale(translations: Translations, locale: string, key: string, args: map<string, string>)
    requires DefaultLocale in translations && locale !in translations
    ensures TrStr(translations, locale, key, args) == TrStr(translations, DefaultLocale, key, args)
  {
  }

  /** A missing key renders as the key itself; a known one as its entry in the locale's table. */
  lemma TrStrLookup(translations: Translations, locale: string, key: string, args: map<string, string>)
    requires DefaultLocale in translations
    ensures key !in TableFor(translations, locale) ==> TrStr(translations, locale, key, args) == Format(key, args)
    ensures locale in translations && key in translations[locale] ==>
      TrStr(translations, locale, key, args) == Format(translations[locale][key], args)
  {
  }

  /** A missing key without braces comes back verbatim. */
  lemma TrStrMissingKey(translations: Translations, locale: string, key: string, args: map<string, string>)
    requires DefaultLocale in translations && key !in TableFor(translations, locale) && NoBraces(key)
    ensures TrStr(translations, locale, key, args) == Ok(key)
  {
    FormatPlain(key, args);
  }

  class LanguageState {
    var locale: string
    var translations: Translations

    constructor(table: Translations)
      requires DefaultLocale in table
      ensures locale == DefaultLocale && translations == table
    {
      locale := DefaultLocale;
      translations := table;
    }

    /** `set_locale` stores the locale as given; the tables are untouched. */
    method SetLocale(lang: string)
      modifies this
      ensures locale == lang && translations == old(translations)
    {
      locale := lang;
    }

    /** `t`: the current table, the Korean one for an unknown locale. */
    function T(): Table
      reads this
      requires DefaultLocale in translations
    {
      TableFor(translations, locale)
    }
  }
}

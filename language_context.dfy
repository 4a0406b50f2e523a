/** The interface language (src/context/LanguageContext.tsx): five translation tables and the `t` lookup. */
module LanguageContext {
  import opened JsValues
  import opened Types

  /** The keys every table defines, in the order they are written. */
  const Keys: seq<string> := [
    "dashboard", "projects", "tasks", "team", "settings", "profile", "deleteAccount",
    "language", "dangerZone", "confirmDelete", "deleteWarning", "cancel", "delete", "confirmEmail"]

  /** No key is listed twice. */
  predicate Distinct(keys: seq<string>) {
    forall i, j :: 0 <= i < j < |keys| ==> keys[i] != keys[j]
  }

  /** The table that maps each of `keys` to the entry at the same position of `values`. */
  function Table(keys: seq<string>, values: seq<string>): (table: map<string, string>)
    requires |values| == |keys|
    ensures table.Keys == set k | k in keys
    ensures Distinct(keys) ==> forall i :: 0 <= i < |keys| ==> table[keys[i]] == values[i]
  {
    if keys == [] then map[]
    else
      var n := |keys| - 1;
      var rest := Table(keys[..n], values[..n]);
      assert forall k :: k in keys <==> k in keys[..n] || k == keys[n];
      rest[keys[n] := values[n]]
  }

  lemma KeysDistinct()
    ensures Distinct(Keys) && |Keys| == 14
  {
  }

  const EnglishValues: seq<string> := [
    "Dashboard", "Projects", "Tasks", "Team", "Settings", "Profile", "Delete Account",
    "Language", "Danger Zone", "Are you absolutely sure?",
    "This action cannot be undone. This will permanently delete your account and remove all of your data from our servers.",
    "Cancel", "Delete", "To confirm, please type your email address:"]

  const SpanishValues: seq<string> := [
    "Panel", "Proyectos", "Tareas", "Equipo", "Ajustes", "Perfil", "Eliminar Cuenta",
    "Idioma", "Zona de Peligro", "¿Estás completamente seguro?",
    "Esta acción no se puede deshacer. Esto eliminará permanentemente tu cuenta y todos tus datos de nuestros servidores.",
    "Cancelar", "Eliminar", "Para confirmar, por favor escribe tu dirección de correo electrónico:"]

  const FrenchValues: seq<string> := [
    "Tableau de Bord", "Projets", "Tâches", "Équipe", "Paramètres", "Profil", "Supprimer le Compte",
    "Langue", "Zone Dangereuse", "Êtes-vous absolument sûr ?",
    "Cette action ne peut pas être annulée. Cela supprimera définitivement votre compte et toutes vos données de nos serveurs.",
    "Annuler", "Supprimer", "Pour confirmer, veuillez saisir votre adresse e-mail :"]

  const GermanValues: seq<string> := [
    "Dashboard", "Projekte", "Aufgaben", "Team", "Einstellungen", "Profil", "Konto Löschen",
    "Sprache", "Gefahrenzone", "Sind Sie absolut sicher?",
    "Diese Aktion kann nicht rückgängig gemacht werden. Dies wird Ihr Konto und alle Ihre Daten von unseren Servern permanent löschen.",
    "Abbrechen", "Löschen", "Zur Bestätigung geben Sie bitte Ihre E-Mail-Adresse ein:"]

  const ChineseValues: seq<string> := [
    "仪表板", "项目", "任务", "团队", "设置", "个人资料", "删除账户",
    "语言", "危险区域", "您确定要这样做吗？",
    "此操作无法撤销。这将永久删除您的帐户并从我们的服务器中删除所有数据。",
    "取消", "删除", "要确认，请输入您的电子邮件地址："]

  /** The entries of one language, in the order of `Keys`. */
  function Values(lang: Language): (values: seq<string>)
    ensures |values| == |Keys|
  {
    match lang
    case ENGLISH => EnglishValues
    case SPANISH => SpanishValues
    case FRENCH => FrenchValues
    case GERMAN => GermanValues
    case CHINESE => ChineseValues
  }

  /** `translations[lang]` */
  function Translations(lang: Language): map<string, string> {
    Table(Keys, Values(lang))
  }

  /** All five tables define the same fourteen keys and no others. */
  lemma SameKeys(a: Language, b: Language)
    ensures Translations(a).Keys == Translations(b).Keys == set k | k in Keys
    ensures |Keys| == 14
  {
  }

  /** No entry of any table is empty. */
  lemma EntriesNonEmpty(lang: Language, i: nat)
    requires i < |Keys|
    ensures Translations(lang)[Keys[i]] == Values(lang)[i] != ""
  {
    KeysDistinct();
    var vs := Values(lang);
    assert forall j :: 0 <= j < |vs| ==> |vs[j]| > 0;
  }

  /**
   * `t(key)` for the language `lang`: `translations[lang][key] || key`, the entry when it is
   * present and non-empty, the key itself otherwise.
   */
  function Translate(lang: Language, key: string): (r: string)
    ensures key in Translations(lang) && Translations(lang)[key] != "" ==> r == Translations(lang)[key]
    ensures key !in Translations(lang) || Translations(lang)[key] == "" ==> r == key
  {
    var table := Translations(lang);
    if key in table && table[key] != "" then table[key] else key
  }

  /** Every listed key is translated to its table entry, and every other key falls back to itself. */
  lemma TranslateKnownAndUnknown(lang: Language, key: string)
    ensures key in Keys ==> Translate(lang, key) == Translations(lang)[key]
    ensures key !in Keys ==> Translate(lang, key) == key
  {
    if key in Keys {
      var i :| 0 <= i < |Keys| && Keys[i] == key;
      EntriesNonEmpty(lang, i);
    }
  }

  /** `useLanguage()`: the provider's context, or the error thrown outside a provider. */
  function UseLanguage<C>(context: Option<C>): (r: Result<C>)
    ensures r.Ok? <==> context.Some?
    ensures r.Ok? ==> r.value == context.value
    ensures r.Err? ==> r.message == "useLanguage must be used within a LanguageProvider"
  {
    if context.Some? then Ok(context.value)
    else Err("useLanguage must be used within a LanguageProvider")
  }

  /** The state a `LanguageProvider` holds. */
  class LanguageProvider {
    var language: Language

    constructor ()
      ensures language == ENGLISH
    {
      language := ENGLISH;
    }

    /** `setLanguage(lang)`: from now on every key reads the table of `lang`, unknown keys themselves. */
    method SetLanguage(lang: Language)
      modifies this
      ensures language == lang
      ensures forall key :: T(key) == if key in Keys then Translations(lang)[key] else key
    {
      language := lang;
      forall key ensures T(key) == if key in Keys then Translations(lang)[key] else key {
        TranslateKnownAndUnknown(lang, key);
      }
    }

    /** The `t` the provider hands out: a lookup in the table of the current language. */
    function T(key: string): (r: string)
      reads this
      ensures r == Translate(language, key)
    {
      Translate(language, key)
    }
  }
}

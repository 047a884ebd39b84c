/** The language context: the Dutch/English translation table, the
    lookup that falls back to the key, the provider's current language and
    the hook that refuses to work outside a provider. */
module Language {
  import opened Types

  datatype Lang = Nl | En

  /** A table row gives one string per language. */
  datatype Entry = Entry(nl: string, en: string)

  /** The interface starts in Dutch. */
  const InitialLanguage: Lang := Nl

  const Translations: map<string, Entry> := map[
      "nav.dashboard" := Entry("Dashboard", "Dashboard"),
      "nav.onboarding" := Entry("Onboarding", "Onboarding"),
      "nav.community" := Entry("Community", "Community"),
      "nav.chat" := Entry("Chat", "Chat"),
      "nav.prospects" := Entry("Prospects", "Prospects"),
      "nav.talents" := Entry("Talents", "Talents"),
      "nav.referral" := Entry("Referral", "Referral"),
      "nav.boastplug" := Entry("Boastplug", "Boastplug"),
      "nav.woningvrij" := Entry("WoningVrij", "WoningVrij"),
      "nav.profile" := Entry("Mijn Profiel", "My Profile"),
      "nav.logout" := Entry("Uitloggen", "Logout"),
      "nav.platform" := Entry("Platform", "Platform"),
      "nav.network" := Entry("Netwerk & Groei", "Network & Growth"),
      "nav.apps" := Entry("Apps & Tools", "Apps & Tools"),
      "dash.welcome" := Entry("Welkom terug", "Welcome back"),
      "dash.teamPerf" := Entry("Je team presteert 12% beter dan vorige week.", "Your team is performing 12% better than last week."),
      "dash.toOnboarding" := Entry("Naar Onboarding", "Go to Onboarding"),
      "dash.profile" := Entry("Mijn Profiel", "My Profile"),
      "dash.start" := Entry("Start Direct", "Start Now"),
      "dash.allUpdated" := Entry("Alles bijgewerkt!", "All up to date!"),
      "dash.activeOnboarding" := Entry("Actieve Onboarding", "Active Onboarding"),
      "dash.viewAll" := Entry("Bekijk alles", "View all"),
      "dash.steps" := Entry("stappen", "steps"),
      "dash.noActive" := Entry("Geen actieve onboarding taken. Tijd om er een te starten!", "No active onboarding tasks. Time to start one!"),
      "dash.news" := Entry("Nieuws & Updates", "News & Updates"),
      "dash.notifications" := Entry("Meldingen", "Notifications"),
      "dash.new" := Entry("nieuw", "new"),
      "dash.myTeam" := Entry("Mijn Team", "My Team"),
      "dash.teamOverview" := Entry("Team Overzicht", "Team Overview"),
      "profile.title" := Entry("Mijn Profiel", "My Profile"),
      "profile.subtitle" := Entry("Beheer je persoonlijke gegevens en voorkeuren.", "Manage your personal details and preferences."),
      "profile.tab.overview" := Entry("Overzicht", "Overview"),
      "profile.tab.account" := Entry("Account", "Account"),
      "profile.tab.preferences" := Entry("Voorkeuren", "Preferences"),
      "profile.level" := Entry("Huidig Level", "Current Level"),
      "profile.xp" := Entry("XP Voortgang", "XP Progress"),
      "profile.stats" := Entry("Statistieken", "Statistics"),
      "profile.completed" := Entry("Voltooide Taken", "Completed Tasks"),
      "profile.earned" := Entry("Totaal Verdiend", "Total Earned"),
      "profile.hours" := Entry("Uren Actief", "Hours Active"),
      "profile.bio" := Entry("Over mij", "About me"),
      "profile.save" := Entry("Opslaan", "Save Changes"),
      "profile.theme" := Entry("Thema", "Theme"),
      "profile.lang" := Entry("Taal", "Language")
    ]

  /** `t(key)`: the entry's string for the current language, or the key
      itself when the table has no entry for it. */
  function Translate(lang: Lang, key: string): (r: string)
    ensures key !in Translations ==> r == key
    ensures key in Translations && lang == Nl ==> r == Translations[key].nl
    ensures key in Translations && lang == En ==> r == Translations[key].en
  {
    if key !in Translations then key
    else if lang == Nl then Translations[key].nl
    else Translations[key].en
  }

  /** The three navigation group titles translate to non-empty strings in
      both languages, so every group gets a header. */
  lemma GroupTitlesNonEmpty(lang: Lang)
    ensures Translate(lang, "nav.platform") == "Platform"
    ensures Translate(lang, "nav.network") == if lang == Nl then "Netwerk & Groei" else "Network & Growth"
    ensures Translate(lang, "nav.apps") == "Apps & Tools"
  {
    PlatformTitle(lang);
    NetworkTitle(lang);
    AppsTitle(lang);
  }

  lemma PlatformTitle(lang: Lang)
    ensures Translate(lang, "nav.platform") == "Platform"
  {
    assert Translations["nav.platform"] == Entry("Platform", "Platform");
  }

  lemma NetworkTitle(lang: Lang)
    ensures Translate(lang, "nav.network") == if lang == Nl then "Netwerk & Groei" else "Network & Growth"
  {
    assert Translations["nav.network"] == Entry("Netwerk & Groei", "Network & Growth");
  }

  lemma AppsTitle(lang: Lang)
    ensures Translate(lang, "nav.apps") == "Apps & Tools"
  {
    assert Translations["nav.apps"] == Entry("Apps & Tools", "Apps & Tools");
  }

  /** What a provider publishes to the components below it. */
  class LanguageProvider {
    var language: Lang

    constructor ()
      ensures language == InitialLanguage
    {
      language := InitialLanguage;
    }

    method SetLanguage(lang: Lang)
      modifies this
      ensures language == lang
    {
      language := lang;
    }

    /** The provider's `t`: the lookup in its current language. */
    function T(key: string): string
      reads this
    {
      Translate(language, key)
    }
  }

  /** `useLanguage()`: the nearest provider's context, or an error when a
      component is rendered outside every provider. */
  function UseLanguage(context: Option<LanguageProvider>): (r: Result<LanguageProvider>)
    ensures context.None? <==> r.Err?
    ensures r.Err? ==> r.message == "useLanguage must be used within a LanguageProvider"
    ensures context.Some? ==> r == Ok(context.value)
  {
    if context.None? then Err("useLanguage must be used within a LanguageProvider") else Ok(context.value)
  }
}

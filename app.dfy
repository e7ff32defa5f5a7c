/**
 * The SourceSpace single-page front end (frontend/src/App.js): the theme
 * table, the page router, the navigation bar, the "habit done today" test,
 * and the view state (current page, signed-in user, theme, journal form)
 * that the effects and event handlers update.
 *
 * Browser I/O (fetch, localStorage, alert, speech) is not modelled: what a
 * handler would send to the back end is returned as a `Request`, and what the
 * back end or the browser hands back is a parameter.
 */
module App {
  import opened Wrappers
  import opened Text

  // ---------------------------------------------------------------- themes

  datatype Colors = Colors(primary: string, secondary: string, accent: string, bg: string)
  datatype ThemeConfig = ThemeConfig(name: string, description: string, colors: Colors, emoji: string)

  /** The `THEMES` object: three themes, keyed by the `source` they are reached from. */
  const Themes: map<string, ThemeConfig> := map[
    "novaverse" := ThemeConfig("NovaVerse", "Artistic & Colorful Galaxy",
      Colors("from-purple-600 via-pink-500 to-orange-400", "from-blue-500 to-purple-600",
             "text-pink-300", "bg-gradient-to-br from-purple-900 via-black to-pink-900"),
      "\U{1F308}"),
    "echoverse" := ThemeConfig("EchoVerse", "Community-Focused Cosmos",
      Colors("from-cyan-400 via-blue-500 to-purple-600", "from-green-400 to-blue-500",
             "text-cyan-300", "bg-gradient-to-br from-blue-900 via-black to-cyan-900"),
      "\U{1F52E}"),
    "logiverse" := ThemeConfig("LogiVerse", "Data-Driven Universe",
      Colors("from-gray-400 via-blue-400 to-cyan-300", "from-slate-500 to-blue-400",
             "text-blue-300", "bg-gradient-to-br from-slate-800 via-black to-blue-900"),
      "\U{2699}\U{FE0F}")
  ]

  const DefaultTheme: string := "novaverse"

  /** The keys of `THEMES`. */
  const ThemeKeys: set<string> := {"novaverse", "echoverse", "logiverse"}

  lemma ThemeKeysAreThemes()
    ensures Themes.Keys == ThemeKeys
  {
  }

  /**
   * `THEMES[theme]` as the render reads it: defined only for the three keys.
   * Every page dereferences `currentTheme.colors`, so `None` is a render that throws.
   */
  function CurrentTheme(theme: string): (r: Option<ThemeConfig>)
    ensures r.Some? <==> theme == "novaverse" || theme == "echoverse" || theme == "logiverse"
    ensures r.Some? ==> theme in Themes && r.value == Themes[theme]
  {
    ThemeKeysAreThemes();
    if theme in Themes then Some(Themes[theme]) else None
  }

  /**
   * Property names every plain JavaScript object inherits from
   * `Object.prototype`; `obj[name]` is a truthy value for each of them.
   */
  const ObjectPrototypeNames: set<string> := {
    "constructor", "hasOwnProperty", "isPrototypeOf", "propertyIsEnumerable",
    "toString", "toLocaleString", "valueOf", "__proto__",
    "__defineGetter__", "__defineSetter__", "__lookupGetter__", "__lookupSetter__"
  }

  /** `urlParams.get('source') || 'novaverse'`: a missing or empty parameter reads as the default. */
  function SourceParam(param: Option<string>): (s: string)
    ensures s != ""
    ensures param.None? || param.value == "" ==> s == DefaultTheme
    ensures param.Some? && param.value != "" ==> s == param.value
  {
    if param.Some? && param.value != "" then param.value else DefaultTheme
  }

  /**
   * The URL effect as written: `if (THEMES[source]) setTheme(source)`. The
   * test is a JavaScript property read, so inherited names pass it too.
   */
  function ThemeFromUrlAsWritten(param: Option<string>, current: string): (t: string)
    ensures SourceParam(param) in ObjectPrototypeNames ==>
              t == SourceParam(param) && CurrentTheme(t).None?
    ensures SourceParam(param) !in ObjectPrototypeNames ==> t == ThemeFromUrl(param, current)
  {
    var source := SourceParam(param);
    if source in ThemeKeys || source in ObjectPrototypeNames then source else current
  }

  /** `?source=toString` passes the check as written and leaves a theme with no configuration. */
  lemma PrototypeNamePassesThemeCheck()
    ensures ThemeFromUrlAsWritten(Some("toString"), DefaultTheme) == "toString"
    ensures CurrentTheme(ThemeFromUrlAsWritten(Some("toString"), DefaultTheme)).None?
  {
  }

  /**
   * The URL effect as intended: adopt the `source` parameter only when it
   * is one of the three theme keys; a missing one means the default theme.
   */
  function ThemeFromUrl(param: Option<string>, current: string): (t: string)
    ensures t in ThemeKeys || t == current
    ensures current in ThemeKeys ==> t in ThemeKeys
    ensures (param.None? || param.value == "") ==> t == DefaultTheme
    ensures param.Some? && param.value in ThemeKeys ==> t == param.value
    ensures param.Some? && param.value != "" && param.value !in ThemeKeys ==> t == current
  {
    var source := SourceParam(param);
    if source in ThemeKeys then source else current
  }

  /**
   * On every `source` value other than a name all JavaScript objects
   * inherit, the corrected check and the written one agree.
   */
  lemma ThemeFromUrlAgreesOffPrototypeNames(param: Option<string>, current: string)
    requires SourceParam(param) !in ObjectPrototypeNames
    ensures ThemeFromUrl(param, current) == ThemeFromUrlAsWritten(param, current)
  {
  }

  // ----------------------------------------------------------------- pages

  /** The page component `renderPage` returns. */
  datatype View = PortalPage | JournalPage | DashboardPage | InsightsPage

  datatype User = User(source: string, name: string, userId: string)

  /** The page names the program ever stores in `currentPage`. */
  const PageNames: set<string> := {"portal", "dashboard", "journal", "insights"}

  /**
   * `renderPage`: without a user every page name shows the portal; with one,
   * each known name shows its own page and any other name the dashboard.
   */
  function RenderPage(currentPage: string, user: Option<User>): (v: View)
    ensures v == PortalPage <==> user.None? || currentPage == "portal"
    ensures v == JournalPage <==> user.Some? && currentPage == "journal"
    ensures v == InsightsPage <==> user.Some? && currentPage == "insights"
    ensures v == DashboardPage <==>
              user.Some? && currentPage != "portal" && currentPage != "journal" && currentPage != "insights"
  {
    if user.None? && currentPage != "portal" then PortalPage
    else match currentPage
      case "portal" => PortalPage
      case "journal" => JournalPage
      case "dashboard" => DashboardPage
      case "insights" => InsightsPage
      case _ => DashboardPage
  }

  /** The page each stored page name is meant to show. */
  function PageOf(name: string): View {
    if name == "journal" then JournalPage
    else if name == "insights" then InsightsPage
    else if name == "portal" then PortalPage
    else DashboardPage
  }

  /**
   * In every state the program can reach (a known page name, and a user
   * exactly when the page is not the portal) `renderPage` shows the page the
   * name stands for: its no-user guard and its default branch never fire.
   */
  lemma ReachableStatesRenderOwnPage(currentPage: string, user: Option<User>)
    requires currentPage in PageNames
    requires user.None? <==> currentPage == "portal"
    ensures RenderPage(currentPage, user) == PageOf(currentPage)
  {
  }

  // ------------------------------------------------------------ navigation

  datatype NavItem = NavItem(id: string, caption: string, icon: string)

  /** `navItems`, in display order. */
  const NavItems: seq<NavItem> := [
    NavItem("dashboard", "Dashboard", "\U{1F30C}"),
    NavItem("journal", "Journal", "\U{1F4DD}"),
    NavItem("insights", "Insights", "\U{1F52E}")
  ]

  datatype NavButton = NavButton(item: NavItem, highlighted: bool)

  /**
   * `Navigation`: nothing on the portal; elsewhere the three items in fixed
   * order, an item highlighted exactly when its id is the current page.
   */
  function Navigation(currentPage: string): (r: Option<seq<NavButton>>)
    ensures r.None? <==> currentPage == "portal"
    ensures r.Some? ==> |r.value| == |NavItems|
    ensures r.Some? ==> forall i :: 0 <= i < |r.value| ==>
              r.value[i].item == NavItems[i] && (r.value[i].highlighted <==> NavItems[i].id == currentPage)
  {
    if currentPage == "portal" then None
    else Some(seq(|NavItems|, i requires 0 <= i < |NavItems| => NavButton(NavItems[i], NavItems[i].id == currentPage)))
  }

  /** At most one navigation button is highlighted. */
  lemma NavigationHighlightsAtMostOne(currentPage: string, i: nat, j: nat)
    requires Navigation(currentPage).Some?
    requires i < |NavItems| && j < |NavItems|
    requires Navigation(currentPage).value[i].highlighted && Navigation(currentPage).value[j].highlighted
    ensures i == j
  {
  }

  /**
   * With a user signed in, a highlighted navigation item is exactly the page
   * on screen: clicking item `k` renders page `k` and highlights item `k` only.
   */
  lemma NavigationAgreesWithRenderedPage(user: Option<User>, k: nat)
    requires user.Some? && k < |NavItems|
    ensures var page := NavItems[k].id;
      RenderPage(page, user) == PageOf(page)
      && Navigation(page).Some?
      && forall i :: 0 <= i < |NavItems| ==> (Navigation(page).value[i].highlighted <==> i == k)
  {
  }

  // ---------------------------------------------------------------- habits

  /** A habit record as the front end sees it; `day` stands for `new Date(date).toDateString()`. */
  datatype HabitRecord = HabitRecord(habitName: string, completed: bool, day: int)

  predicate IsDoneOn(h: HabitRecord, name: string, today: int) {
    h.habitName == name && h.completed && h.day == today
  }

  /**
   * `habits.some(...)`: the habit shows as done when some record has its
   * name, is completed and falls on the same calendar day as today.
   */
  function CompletedToday(habits: seq<HabitRecord>, name: string, today: int): (done: bool)
    ensures done <==> exists i :: 0 <= i < |habits| && IsDoneOn(habits[i], name, today)
  {
    if habits == [] then false
    else
      IsDoneOn(habits[0], name, today) || CompletedToday(habits[1..], name, today)
  }

  // -------------------------------------------------------------- requests

  /** The body of each POST the front end sends. */
  datatype Request =
    | CreateUserRequest(source: string, name: string)
    | JournalRequest(userId: string, title: string, content: string, mood: int)
    | HabitRequest(userId: string, habitName: string, completed: bool)
    | InsightRequest(userId: string, insightType: string)

  // ------------------------------------------------------------ view state

  /** The `SourceSpace` component's state and the handlers that change it. */
  class SourceSpace {
    var currentPage: string
    var user: Option<User>
    var theme: string
    // the journal form of `JournalPage`
    var title: string
    var content: string
    var mood: int

    /**
     * What every handler keeps: the page name is one the program uses, a
     * user is signed in exactly off the portal, the mood slider stays in
     * 1..10, and a theme outside `THEMES` can only be a signed-in user's own.
     */
    ghost predicate Valid()
      reads this
    {
      currentPage in PageNames
      && (user.None? <==> currentPage == "portal")
      && 1 <= mood <= 10
      && (theme in ThemeKeys || (user.Some? && theme == user.value.source))
    }

    /** The first render: the portal, nobody signed in, the default theme, an empty form. */
    constructor ()
      ensures Valid()
      ensures currentPage == "portal" && user == None && theme == DefaultTheme
      ensures title == "" && content == "" && mood == 5
    {
      currentPage := "portal";
      user := None;
      theme := DefaultTheme;
      title, content, mood := "", "", 5;
    }

    /** The mount effect that picks the theme from the `source` URL parameter. */
    method ApplyUrlSource(param: Option<string>)
      requires Valid()
      modifies this
      ensures Valid()
      ensures theme == ThemeFromUrl(param, old(theme))
      ensures currentPage == old(currentPage) && user == old(user)
      ensures title == old(title) && content == old(content) && mood == old(mood)
    {
      theme := ThemeFromUrl(param, theme);
    }

    /**
     * The mount effect that restores a saved user: it signs the user in,
     * takes the user's `source` as the theme without checking it against
     * `THEMES`, and opens the dashboard. No saved user changes nothing.
     */
    method RestoreSavedUser(saved: Option<User>)
      requires Valid()
      modifies this
      ensures Valid()
      ensures saved.Some? ==>
                user == saved && theme == saved.value.source && currentPage == "dashboard"
      ensures saved.None? ==>
                user == old(user) && theme == old(theme) && currentPage == old(currentPage)
      ensures title == old(title) && content == old(content) && mood == old(mood)
    {
      if saved.Some? {
        user := saved;
        theme := saved.value.source;
        currentPage := "dashboard";
      }
    }

    /** Both mount effects, in the order the component declares them. */
    method Mount(param: Option<string>, saved: Option<User>)
      requires Valid()
      modifies this
      ensures Valid()
      ensures theme == if saved.Some? then saved.value.source else ThemeFromUrl(param, old(theme))
      ensures user == if saved.Some? then saved else old(user)
      ensures currentPage == if saved.Some? then "dashboard" else old(currentPage)
      ensures title == old(title) && content == old(content) && mood == old(mood)
    {
      ApplyUrlSource(param);
      RestoreSavedUser(saved);
    }

    /**
     * The portal's submit button: `name.trim() && createUser(name.trim())`.
     * `issuedId` is the `user_id` the back end returns, `None` when the call
     * fails (the failure is only reported to the user). The button exists
     * only while the portal renders.
     */
    method SubmitPortalName(name: string, issuedId: Option<string>) returns (sent: Option<Request>)
      requires Valid()
      modifies this
      ensures Valid()
      ensures sent.Some? <==> old(RenderPage(currentPage, user)) == PortalPage && JsTrim(name) != ""
      ensures sent.Some? ==> sent.value == CreateUserRequest(old(theme), JsTrim(name))
      ensures sent.Some? && issuedId.Some? ==>
                user == Some(User(old(theme), JsTrim(name), issuedId.value)) && currentPage == "dashboard"
      ensures sent.None? || issuedId.None? ==> user == old(user) && currentPage == old(currentPage)
      ensures theme == old(theme)
      ensures title == old(title) && content == old(content) && mood == old(mood)
    {
      var trimmed := JsTrim(name);
      if RenderPage(currentPage, user) != PortalPage || trimmed == "" {
        sent := None;
      } else {
        sent := Some(CreateUserRequest(theme, trimmed));
        if issuedId.Some? {
          assert "dashboard" in PageNames && "dashboard" != "portal";
          user, currentPage := Some(User(theme, trimmed, issuedId.value)), "dashboard";
        }
      }
    }

    method SetTitle(t: string)
      requires Valid()
      modifies this
      ensures Valid() && title == t
      ensures content == old(content) && mood == old(mood)
      ensures currentPage == old(currentPage) && user == old(user) && theme == old(theme)
    {
      title := t;
    }

    method SetContent(c: string)
      requires Valid()
      modifies this
      ensures Valid() && content == c
      ensures title == old(title) && mood == old(mood)
      ensures currentPage == old(currentPage) && user == old(user) && theme == old(theme)
    {
      content := c;
    }

    /** The mood slider, an `<input type="range" min="1" max="10">`. */
    method SetMood(m: int)
      requires Valid()
      requires 1 <= m <= 10
      modifies this
      ensures Valid() && mood == m
      ensures title == old(title) && content == old(content)
      ensures currentPage == old(currentPage) && user == old(user) && theme == old(theme)
    {
      mood := m;
    }

    /**
     * `createJournalEntry`'s guard and body: nothing is sent without a user;
     * otherwise the entry goes out with the user's id.
     */
    function JournalEntryRequest(t: string, c: string, m: int): (r: Option<Request>)
      reads this
      ensures r.None? <==> user.None?
      ensures r.Some? ==> r.value == JournalRequest(user.value.userId, t, c, m)
    {
      if user.None? then None else Some(JournalRequest(user.value.userId, t, c, m))
    }

    /**
     * The journal form's submit: only when both the trimmed title and the
     * trimmed content are non-empty does it save the trimmed pair and reset
     * the form to an empty title and content and mood 5; the reset happens
     * whether or not a user could be found to save for. The form exists only
     * while the journal page renders.
     */
    method SubmitJournal() returns (sent: Option<Request>)
      requires Valid()
      modifies this
      ensures Valid()
      ensures old(RenderPage(currentPage, user)) == JournalPage && JsTrim(old(title)) != "" && JsTrim(old(content)) != "" ==>
                title == "" && content == "" && mood == 5
                && sent == old(JournalEntryRequest(JsTrim(title), JsTrim(content), mood))
      ensures old(RenderPage(currentPage, user)) != JournalPage || JsTrim(old(title)) == "" || JsTrim(old(content)) == "" ==>
                sent.None? && title == old(title) && content == old(content) && mood == old(mood)
      ensures currentPage == old(currentPage) && user == old(user) && theme == old(theme)
    {
      var t, c := JsTrim(title), JsTrim(content);
      sent := None;
      if RenderPage(currentPage, user) == JournalPage && t != "" && c != "" {
        sent := JournalEntryRequest(t, c, mood);
        title, content, mood := "", "", 5;
      }
    }

    /**
     * A habit button's click: `!completed && toggleHabit(habit)`, where
     * `toggleHabit` does nothing without a user. A habit already done today
     * sends nothing. The buttons exist only while the dashboard renders.
     */
    function HabitClick(habitName: string, habits: seq<HabitRecord>, today: int): (r: Option<Request>)
      reads this
      ensures r.Some? <==> RenderPage(currentPage, user) == DashboardPage && user.Some?
                           && !CompletedToday(habits, habitName, today)
      ensures r.Some? ==> r.value == HabitRequest(user.value.userId, habitName, true)
    {
      if RenderPage(currentPage, user) != DashboardPage || CompletedToday(habits, habitName, today) || user.None?
      then None
      else Some(HabitRequest(user.value.userId, habitName, true))
    }

    /**
     * `generateAIInsight(type)`: nothing is asked for without a user. The
     * buttons exist only while the insights page renders.
     */
    function InsightClick(insightType: string): (r: Option<Request>)
      reads this
      ensures r.Some? <==> RenderPage(currentPage, user) == InsightsPage && user.Some?
      ensures r.Some? ==> r.value == InsightRequest(user.value.userId, insightType)
    {
      if RenderPage(currentPage, user) != InsightsPage || user.None? then None
      else Some(InsightRequest(user.value.userId, insightType))
    }

    /** A navigation button: `setCurrentPage(item.id)`; no buttons exist on the portal. */
    method ClickNavItem(k: nat)
      requires Valid()
      requires k < |NavItems|
      modifies this
      ensures Valid()
      ensures old(currentPage) == "portal" ==> currentPage == old(currentPage)
      ensures old(currentPage) != "portal" ==> currentPage == NavItems[k].id
      ensures RenderPage(currentPage, user) == PageOf(currentPage)
      ensures user == old(user) && theme == old(theme)
      ensures title == old(title) && content == old(content) && mood == old(mood)
    {
      if Navigation(currentPage).Some? {
        currentPage := NavItems[k].id;
      }
    }

    /** The dashboard's two quick actions, to the journal or to the insights page. */
    method ClickQuickAction(toInsights: bool)
      requires Valid()
      modifies this
      ensures Valid()
      ensures RenderPage(old(currentPage), old(user)) == DashboardPage ==>
                currentPage == (if toInsights then "insights" else "journal")
      ensures RenderPage(old(currentPage), old(user)) != DashboardPage ==> currentPage == old(currentPage)
      ensures user == old(user) && theme == old(theme)
      ensures title == old(title) && content == old(content) && mood == old(mood)
    {
      if RenderPage(currentPage, user) == DashboardPage {
        currentPage := if toInsights then "insights" else "journal";
      }
    }
  }

  /**
   * `currentTheme` is a partial lookup: a saved user whose `source` is not a
   * theme key is restored as is, and the theme then has no configuration.
   */
  method RestoredUnknownSourceHasNoTheme(source: string, name: string, userId: string)
    returns (config: Option<ThemeConfig>)
    requires source !in ThemeKeys
    ensures config.None?
  {
    var view := new SourceSpace();
    view.RestoreSavedUser(Some(User(source, name, userId)));
    config := CurrentTheme(view.theme);
  }
}

/** The bottom navigation bar: hidden on a fixed list of screens, otherwise
    five items, the one naming the current screen marked active. It works on
    the raw screen string the root passes in. */
module BottomNavigation {
  import opened Navigation

  datatype NavItem = NavItem(id: string, title: string, screen: string)

  const NavItems: seq<NavItem> := [
    NavItem("home", "Accueil", "home"),
    NavItem("search", "Recherche", "search"),
    NavItem("favorites", "Favoris", "favorites"),
    NavItem("history", "Historique", "history"),
    NavItem("account", "Profil", "account")
  ]

  /** The screens on which the bar is not drawn. */
  const HiddenScreens: seq<string> := [
    "splash", "language-selection", "scanner", "product-detail", "settings",
    "premium-dashboard", "faq-support", "custom-lists", "badges", "premium-recommendations"
  ]

  predicate HideBottomNav(currentScreen: string)
    ensures HideBottomNav(currentScreen) ==> forall item :: item in NavItems ==> !IsActive(item, currentScreen)
  {
    currentScreen in HiddenScreens
  }

  predicate IsActive(item: NavItem, currentScreen: string) {
    currentScreen == item.screen
  }

  /** On the root's screens, the bar is hidden exactly on the ten listed ones
      and shown on the other five and on every unlisted name. */
  lemma HiddenScreensOfApp(s: Screen)
    requires Canonical(s)
    ensures HideBottomNav(NameOf(s)) <==>
      s in {Splash, LanguageSelection, Scanner, ProductDetail, Settings,
            PremiumDashboard, FaqSupport, CustomLists, Badges, PremiumRecommendations}
  {
  }

  /** None of the five navigation targets hides the bar. */
  lemma NavTargetsVisible()
    ensures forall item :: item in NavItems ==> !HideBottomNav(item.screen)
  {
  }

  /** The item screens are distinct, so at most one item is active. */
  lemma AtMostOneActive(currentScreen: string)
    ensures forall i, j ::
              0 <= i < |NavItems| && 0 <= j < |NavItems| &&
              IsActive(NavItems[i], currentScreen) && IsActive(NavItems[j], currentScreen)
              ==> i == j
  {
  }

  /** A name the root does not know (such as "login") leaves the bar visible
      with no item active. */
  lemma UnlistedScreenShowsBarUnmarked(name: string)
    requires ScreenOf(name).Unlisted?
    ensures !HideBottomNav(name)
    ensures forall item :: item in NavItems ==> !IsActive(item, name)
  {
  }

  /** Selecting item `i` navigates to its screen; there the bar stays visible
      and item `i` is the only active one. */
  lemma SelectingItemActivatesIt(i: nat)
    requires i < |NavItems|
    ensures var s := ScreenOf(NavItems[i].screen);
      !s.Unlisted? && NameOf(s) == NavItems[i].screen && !HideBottomNav(NameOf(s))
      && forall j :: 0 <= j < |NavItems| ==> (IsActive(NavItems[j], NameOf(s)) <==> j == i)
  {
    AtMostOneActive(NavItems[i].screen);
  }
}

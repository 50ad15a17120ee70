/** The application root: four state cells (screen, language, selected
    product, first-launch flag) changed by event handlers, plus the choice
    of what to render for the current screen. */
module Navigation {
  import opened Wrappers
  import opened Catalog
  import opened Storage

  /** Every screen the root renders, and `Unlisted` for any other name
      `handleNavigation` is handed: it accepts any string unchecked. */
  datatype Screen =
    | Splash | LanguageSelection | Home | Scanner | ProductDetail | Search
    | Favorites | History | PremiumRecommendations | Account | Settings
    | PremiumDashboard | FaqSupport | CustomLists | Badges
    | Unlisted(name: string)

  /** The string that names a screen. */
  function NameOf(s: Screen): string {
    match s
    case Splash => "splash"
    case LanguageSelection => "language-selection"
    case Home => "home"
    case Scanner => "scanner"
    case ProductDetail => "product-detail"
    case Search => "search"
    case Favorites => "favorites"
    case History => "history"
    case PremiumRecommendations => "premium-recommendations"
    case Account => "account"
    case Settings => "settings"
    case PremiumDashboard => "premium-dashboard"
    case FaqSupport => "faq-support"
    case CustomLists => "custom-lists"
    case Badges => "badges"
    case Unlisted(n) => n
  }

  /** The screen a name selects in the `switch` of `renderScreen`. Naming is
      lossless: the name of the parsed screen is the original string. */
  function ScreenOf(name: string): (s: Screen)
    ensures NameOf(s) == name
  {
    if name == "splash" then Splash
    else if name == "language-selection" then LanguageSelection
    else if name == "home" then Home
    else if name == "scanner" then Scanner
    else if name == "product-detail" then ProductDetail
    else if name == "search" then Search
    else if name == "favorites" then Favorites
    else if name == "history" then History
    else if name == "premium-recommendations" then PremiumRecommendations
    else if name == "account" then Account
    else if name == "settings" then Settings
    else if name == "premium-dashboard" then PremiumDashboard
    else if name == "faq-support" then FaqSupport
    else if name == "custom-lists" then CustomLists
    else if name == "badges" then Badges
    else Unlisted(name)
  }

  /** A screen value that `ScreenOf` can produce: `Unlisted` only carries a
      name that is not one of the fifteen. */
  predicate Canonical(s: Screen) {
    !s.Unlisted? || ScreenOf(s.name) == s
  }

  /** Parsing the name of a canonical screen gives the screen back. */
  lemma ScreenNamesRoundTrip(s: Screen)
    ensures Canonical(s) ==> ScreenOf(NameOf(s)) == s
  {
  }

  /** The screen whose component `renderScreen` mounts, or `None` when it
      renders nothing: an unknown name, or the detail screen without a
      selected product. */
  function Rendered(screen: Screen, selected: Option<Product>): (r: Option<Screen>)
    ensures r.Some? ==> r.value == screen
    ensures r.None? <==> screen.Unlisted? || (screen == ProductDetail && selected.None?)
  {
    match screen
    case Unlisted(_) => None
    case ProductDetail => if selected.Some? then Some(ProductDetail) else None
    case _ => Some(screen)
  }

  /** What a barcode submission reports back to the scanner: the source's
      `alert` on a miss becomes `NotFound`. */
  datatype ScanOutcome = Found(product: Product) | NotFound

  class App {
    const store: Store
    var currentScreen: Screen
    var language: string
    var selectedProduct: Option<Product>
    var isFirstLaunch: bool

    /** The initial values of the four state cells. */
    constructor (store: Store)
      ensures this.store == store
      ensures currentScreen == Splash && language == DefaultLanguage
      ensures selectedProduct == None && isFirstLaunch
    {
      this.store := store;
      currentScreen := Splash;
      language := "en";
      selectedProduct := None;
      isFirstLaunch := true;
    }

    /** The start-up effect: a launch marker restores the saved language and
        clears the first-launch flag. The saved-language half of the test is
        always true, because the language read never yields "". */
    method Startup()
      modifies this`language, this`isFirstLaunch
      ensures store.LaunchMarked() ==> language == store.LanguageGet() && !isFirstLaunch
      ensures !store.LaunchMarked() ==> language == old(language) && isFirstLaunch == old(isFirstLaunch)
    {
      var savedLanguage := store.LanguageGet();
      var hasLaunched := store.hasLaunched;
      if hasLaunched.Some? && hasLaunched.value != "" && savedLanguage != "" {
        language := savedLanguage;
        isFirstLaunch := false;
      }
    }

    method SplashComplete()
      modifies this`currentScreen
      ensures currentScreen == if isFirstLaunch then LanguageSelection else Home
    {
      if isFirstLaunch {
        currentScreen := LanguageSelection;
      } else {
        currentScreen := Home;
      }
    }

    /** Sets and persists the language; the screen stays. */
    method LanguageSelect(selectedLanguage: string)
      modifies this`language, store`language
      ensures language == selectedLanguage && store.language == Some(selectedLanguage)
    {
      language := selectedLanguage;
      store.LanguageSet(selectedLanguage);
    }

    /** Writes the launch marker and goes home. */
    method LanguageContinue()
      modifies this`currentScreen, store`hasLaunched
      ensures store.hasLaunched == Some("true") && store.LaunchMarked() && currentScreen == Home
    {
      store.hasLaunched := Some("true");
      currentScreen := Home;
    }

    /** Any name is accepted; names outside the fifteen become `Unlisted`. */
    method Navigate(screen: string)
      modifies this`currentScreen
      ensures currentScreen == ScreenOf(screen) && NameOf(currentScreen) == screen
    {
      currentScreen := ScreenOf(screen);
    }

    /** A catalog hit selects the product and opens its detail screen; a miss
        reports `NotFound` and changes nothing. */
    method ProductFound(barcode: string) returns (outcome: ScanOutcome)
      modifies this`currentScreen, this`selectedProduct
      ensures outcome == (match FindProductByBarcode(barcode)
                          case Some(p) => Found(p)
                          case None => NotFound)
      ensures outcome.Found? ==> currentScreen == ProductDetail && selectedProduct == Some(outcome.product)
      ensures outcome.NotFound? ==> currentScreen == old(currentScreen) && selectedProduct == old(selectedProduct)
    {
      var product := FindProductByBarcode(barcode);
      if product.Some? {
        selectedProduct := product;
        currentScreen := ProductDetail;
        outcome := Found(product.value);
      } else {
        outcome := NotFound;
      }
    }

    method ProductSelect(product: Product)
      modifies this`currentScreen, this`selectedProduct
      ensures selectedProduct == Some(product) && currentScreen == ProductDetail
    {
      selectedProduct := Some(product);
      currentScreen := ProductDetail;
    }

    /** There is no back stack: back always means home, with nothing selected. */
    method Back()
      modifies this`currentScreen, this`selectedProduct
      ensures currentScreen == Home && selectedProduct == None
    {
      currentScreen := Home;
      selectedProduct := None;
    }

    /** Goes to the recommendations whether or not a product is selected. */
    method FindAlternatives()
      modifies this`currentScreen
      ensures currentScreen == PremiumRecommendations
    {
      currentScreen := PremiumRecommendations;
    }

    /** Changes the language in memory only; nothing is persisted. */
    method LanguageChange(newLanguage: string)
      modifies this`language
      ensures language == newLanguage
    {
      language := newLanguage;
    }
  }
}

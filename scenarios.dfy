/** End-to-end sessions that drive the root together with the screens and
    the store, stating what the user ends up seeing. */
module Scenarios {
  import opened Wrappers
  import opened Lists
  import opened Catalog
  import opened Storage
  import opened Navigation
  import opened ProductDetail
  import opened Scanner

  /** A store with every key absent, as on a first visit. */
  method EmptyStore() returns (store: Store)
    ensures fresh(store)
    ensures store.FavoritesGet() == [] && store.HistoryGet() == [] && store.SearchesGet() == []
    ensures store.LanguageGet() == DefaultLanguage && !store.LaunchMarked() && store.Tidy()
  {
    store := new Store(Missing, Missing, None, Missing, Missing, Missing, None);
  }

  /** A first launch goes splash, language selection, home; the chosen
      language is kept, and the next launch skips the selection and comes
      back in that language. */
  method FirstAndSecondLaunch(chosen: string) returns (screens: seq<Screen>, relaunch: Screen, relaunchLanguage: string)
    requires chosen != ""
    ensures screens == [Splash, LanguageSelection, Home]
    ensures relaunch == Home && relaunchLanguage == chosen
  {
    var store := EmptyStore();
    var app := new App(store);
    app.Startup();
    screens := [app.currentScreen];
    app.SplashComplete();
    screens := screens + [app.currentScreen];
    app.LanguageSelect(chosen);
    app.LanguageContinue();
    screens := screens + [app.currentScreen];

    var again := new App(store);
    again.Startup();
    again.SplashComplete();
    relaunch := again.currentScreen;
    relaunchLanguage := again.language;
  }

  /** A returning user with French saved and the launch marker set lands on
      home in French. */
  method ReturningUser() returns (screen: Screen, language: string)
    ensures screen == Home && language == "fr"
  {
    var store := new Store(Missing, Missing, Some("fr"), Missing, Missing, Missing, Some("true"));
    var app := new App(store);
    app.Startup();
    app.SplashComplete();
    screen, language := app.currentScreen, app.language;
  }

  /** A camera scan started on the scanner emits the simulated barcode when
      its timer fires. */
  method CameraScan() returns (code: string)
    ensures code == MockBarcode
  {
    var scanner := new ScannerView();
    scanner.SimulateScan();
    code := scanner.ScanTimerFires();
  }

  /** A camera scan from the scanner opens product "1", and opening it puts
      "1" at the head of the history log. */
  method ScanOpensProduct() returns (outcome: ScanOutcome, screen: Screen, history: seq<string>)
    ensures outcome == Found(MockProducts[0]) && outcome.product.id == "1"
    ensures screen == ProductDetail
    ensures history == ["1"]
  {
    var store := EmptyStore();
    var app := new App(store);
    ScreenNamesRoundTrip(Scanner);
    app.Navigate("scanner");
    var code := CameraScan();
    MockBarcodeFindsProduct();
    outcome := app.ProductFound(code);
    screen := app.currentScreen;
    var view := new ProductDetailView(store, app.selectedProduct.value);
    history := store.HistoryGet();
  }

  /** A barcode with no whitespace at either end, typed into the scanner's
      field and submitted, is emitted as typed. */
  method TypeAndSubmit(typed: string) returns (code: string)
    requires typed != [] && !Text.IsSpace(typed[0]) && !Text.IsSpace(typed[|typed| - 1])
    ensures code == typed
  {
    var scanner := new ScannerView();
    scanner.SetManualBarcode(typed);
    Text.TrimKeepsTrimmed(typed);
    var emitted := scanner.HandleManualSubmit();
    code := emitted.value;
  }

  /** An unregistered barcode typed by hand reports `NotFound`; the user
      stays on the scanner with nothing selected. */
  method UnknownBarcodeStays() returns (outcome: ScanOutcome, screen: Screen, selected: Option<Product>)
    ensures outcome == NotFound && screen == Scanner && selected == None
  {
    var store := EmptyStore();
    var app := new App(store);
    ScreenNamesRoundTrip(Scanner);
    app.Navigate("scanner");
    var code := TypeAndSubmit("0000000000000");
    KnownBarcodes();
    outcome := app.ProductFound(code);
    screen, selected := app.currentScreen, app.selectedProduct;
  }

  /** Two toggles on the detail screen: the first answers the opposite of
      the starting membership, the second undoes it, and the flag and the
      stored membership end where they began. */
  method ToggleTwice(view: ProductDetailView) returns (first: bool, second: bool)
    requires view.Synced()
    modifies view, view.store
    ensures first == (view.product.id !in old(view.store.FavoritesGet())) && second == !first
    ensures view.isFavorite == old(view.isFavorite)
    ensures (view.product.id in view.store.FavoritesGet()) == (view.product.id in old(view.store.FavoritesGet()))
    ensures view.product.id !in old(view.store.FavoritesGet()) ==> view.store.FavoritesGet() == old(view.store.FavoritesGet())
    ensures old(view.store.Tidy()) ==> view.store.Tidy()
  {
    view.ToggleFavorite();
    first := view.isFavorite;
    view.ToggleFavorite();
    second := view.isFavorite;
    if first {
      ToggleTwiceAbsent(old(view.store.FavoritesGet()), view.product.id);
    }
  }

  /** Product "2" toggled twice on a fresh store: favorite, then not. */
  method ToggleProductTwo() returns (first: bool, afterFirst: seq<string>, second: bool, afterSecond: seq<string>)
    ensures first && "2" in afterFirst
    ensures !second && "2" !in afterSecond
  {
    var store := EmptyStore();
    var view := new ProductDetailView(store, MockProducts[1]);
    view.ToggleFavorite();
    first, afterFirst := view.isFavorite, store.FavoritesGet();
    view.ToggleFavorite();
    second, afterSecond := view.isFavorite, store.FavoritesGet();
  }
}

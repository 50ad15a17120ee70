/** The persistent store: typed collections over the browser's key/value
    storage. Each JSON cell decodes to a fixed default when it is missing
    or unreadable, and each mutator reads its cell, computes a new value
    and writes it back. */
module Storage {
  import opened Wrappers
  import opened Lists

  /** The JSON-encoded content of one storage key. `Corrupt` stands for any
      raw text that yields no value: the empty string (falsy) or text that
      `JSON.parse` rejects. */
  datatype Cell<T> = Missing | Corrupt | Stored(value: T)

  datatype Tier = Free | Premium

  datatype BillingCycle = Monthly | Yearly

  /** `expiresAt` is a timestamp in milliseconds. */
  datatype Subscription = Subscription(
    tier: Tier,
    expiresAt: Option<int>,
    features: seq<string>,
    price: Option<string>,
    billingCycle: Option<BillingCycle>)

  datatype UserStats = UserStats(
    totalScans: int,
    crueltyFreePercentage: int,
    favoriteProducts: int,
    monthlyScans: int,
    streak: int)

  const HistoryCap: nat := 50
  const SearchesCap: nat := 10
  const DefaultLanguage: string := "en"
  const DefaultSubscription: Subscription := Subscription(Free, None, [], None, None)
  const ZeroStats: UserStats := UserStats(0, 0, 0, 0, 0)

  /** Reading a JSON cell: the stored value, or `default` when there is
      none; a read never fails. */
  function Read<T>(c: Cell<T>, default: T): (r: T)
    ensures c.Stored? ==> r == c.value
    ensures c.Missing? || c.Corrupt? ==> r == default
  {
    match c
    case Stored(v) => v
    case _ => default
  }

  /** `favorites.add`: append `x` at the end unless it is already present. */
  function AddOnce<T(==,!new)>(s: seq<T>, x: T): (r: seq<T>)
    ensures x in r
    ensures forall y :: y in r <==> y in s || y == x
    ensures |s| <= |r| <= |s| + 1 && r[..|s|] == s
    ensures x in s ==> r == s
  {
    if x in s then s else s + [x]
  }

  /** Adding twice is adding once. */
  lemma AddOnceIdempotent<T(!new)>(s: seq<T>, x: T)
    ensures AddOnce(AddOnce(s, x), x) == AddOnce(s, x)
  {
  }

  /** `favorites.add` keeps a duplicate-free list duplicate-free. */
  lemma AddOnceNoDup<T(!new)>(s: seq<T>, x: T)
    requires NoDup(s)
    ensures NoDup(AddOnce(s, x))
  {
  }

  /** The dedup-and-promote rule of `history.add` and `searches.add`: `x` goes
      to the front, its earlier occurrences go away, and the list is cut to
      `cap` entries. */
  function Promote<T(==,!new)>(s: seq<T>, x: T, cap: nat): (r: seq<T>)
    ensures |r| <= cap
    ensures cap > 0 ==> |r| > 0 && r[0] == x && x !in r[1..]
    ensures forall y :: y in r ==> y == x || y in s
  {
    var r := Take([x] + Without(s, x), cap);
    assert cap > 0 ==> r[1..] == Take(Without(s, x), cap - 1);
    r
  }

  /** Promoting splits into the new head and the old entries, minus `x`,
      cut to `cap - 1`. */
  lemma PromoteTail<T(!new)>(s: seq<T>, x: T, cap: nat)
    requires cap > 0
    ensures Promote(s, x, cap) == [x] + Take(Without(s, x), cap - 1)
  {
  }

  /** The other entries keep their relative order, and every one of them is
      kept unless the cap cuts it off. */
  lemma PromoteKeepsOrder<T(!new)>(s: seq<T>, x: T, cap: nat)
    requires cap > 0
    ensures Subsequence(Promote(s, x, cap)[1..], s)
    ensures |Promote(s, x, cap)| == if 1 + |Without(s, x)| <= cap then 1 + |Without(s, x)| else cap
    ensures forall y :: y in s && y != x && 1 + |Without(s, x)| <= cap ==> y in Promote(s, x, cap)
  {
    var w := Without(s, x);
    var t := Take(w, cap - 1);
    PromoteTail(s, x, cap);
    assert Promote(s, x, cap)[1..] == t;
    PrefixSubsequence(w, |t|);
    SubsequenceTrans(t, w, s);
  }

  /** Promoting into a duplicate-free list gives a duplicate-free list. */
  lemma PromoteNoDup<T(!new)>(s: seq<T>, x: T, cap: nat)
    requires NoDup(s)
    ensures NoDup(Promote(s, x, cap))
  {
    var w := Without(s, x);
    WithoutNoDup(s, x);
    var l := [x] + w;
    assert NoDup(l) by {
      forall i, j | 0 <= i < j < |l| ensures l[i] != l[j] {
        if i == 0 {
          assert l[j] == w[j - 1] && l[j] in w;
        } else {
          assert l[i] == w[i - 1] && l[j] == w[j - 1];
        }
      }
    }
    var r := Take(l, cap);
    assert forall i, j :: 0 <= i < j < |r| ==> r[i] == l[i] && r[j] == l[j];
  }

  /** A full log that receives a new entry drops its oldest (last) entry. */
  lemma PromoteFullDropsOldest<T(!new)>(s: seq<T>, x: T, cap: nat)
    requires cap > 0 && |s| == cap && x !in s
    ensures Promote(s, x, cap) == [x] + s[..cap - 1]
  {
    PromoteTail(s, x, cap);
  }

  /** Re-adding an entry of a duplicate-free list within the cap moves it to
      the front without changing the length. */
  lemma PromoteExistingKeepsLength<T(!new)>(s: seq<T>, x: T, cap: nat)
    requires NoDup(s) && x in s && |s| <= cap
    ensures |Promote(s, x, cap)| == |s|
  {
    WithoutOnce(s, x);
  }

  /** Re-adding the oldest entry of a duplicate-free log moves it from the
      end to the front; the other entries shift back by one. */
  lemma PromoteOldest<T(!new)>(s: seq<T>, cap: nat)
    requires NoDup(s) && 0 < |s| <= cap
    ensures Promote(s, s[|s| - 1], cap) == [s[|s| - 1]] + s[..|s| - 1]
  {
    var x := s[|s| - 1];
    var front := s[..|s| - 1];
    assert s == front + [x];
    assert x !in front;
    WithoutAppend(front, [x], x);
    assert Without([x], x) == [];
    PromoteTail(s, x, cap);
  }

  /** Promoting the same entry twice is promoting it once. */
  lemma PromoteIdempotent<T(!new)>(s: seq<T>, x: T, cap: nat)
    ensures Promote(Promote(s, x, cap), x, cap) == Promote(s, x, cap)
  {
    if cap > 0 {
      var r := Promote(s, x, cap);
      var t := r[1..];
      PromoteTail(s, x, cap);
      assert x !in t;
      assert Without(r, x) == t by {
        assert r == [x] + t;
        WithoutAppend([x], t, x);
        assert Without([x], x) == [];
        assert Without(t, x) == t;
      }
      assert [x] + t == r;
    }
  }

  /** One toggle adds an absent id and the next removes it again: the list
      is exactly as before. */
  lemma ToggleTwiceAbsent<T(!new)>(s: seq<T>, x: T)
    requires x !in s
    ensures Without(AddOnce(s, x), x) == s
  {
    WithoutAppend(s, [x], x);
    assert Without([x], x) == [];
    assert Without(s, x) == s;
  }

  /** One toggle removes a present id and the next appends it again: the
      duplicate-free list has the same elements, with `x` moved to the end. */
  lemma ToggleTwicePresent<T(!new)>(s: seq<T>, x: T)
    requires NoDup(s) && x in s
    ensures AddOnce(Without(s, x), x) == Without(s, x) + [x]
    ensures multiset(AddOnce(Without(s, x), x)) == multiset(s)
  {
    WithoutMultiset(s, x);
    NoDupCount(s, x);
  }

  /** The browser's local storage, one field per key. */
  class Store {
    /** key `vayara_favorites` */
    var favorites: Cell<seq<string>>
    /** key `vayara_history` */
    var history: Cell<seq<string>>
    /** key `vayara_language`, raw text (not JSON) */
    var language: Option<string>
    /** key `vayara_searches` */
    var searches: Cell<seq<string>>
    /** key `vayara_subscription` */
    var subscription: Cell<Subscription>
    /** key `vayara_stats` */
    var stats: Cell<UserStats>
    /** key `vayara_has_launched`, raw text */
    var hasLaunched: Option<string>

    /** The store as the browser hands it over at start-up. */
    constructor (favorites: Cell<seq<string>>, history: Cell<seq<string>>, language: Option<string>,
                 searches: Cell<seq<string>>, subscription: Cell<Subscription>, stats: Cell<UserStats>,
                 hasLaunched: Option<string>)
      ensures this.favorites == favorites && this.history == history && this.language == language
      ensures this.searches == searches && this.subscription == subscription && this.stats == stats
      ensures this.hasLaunched == hasLaunched
    {
      this.favorites, this.history, this.language := favorites, history, language;
      this.searches, this.subscription, this.stats := searches, subscription, stats;
      this.hasLaunched := hasLaunched;
    }

    /** The lists the application itself writes are duplicate-free and
        within their caps. */
    ghost predicate Tidy()
      reads this`favorites, this`history, this`searches
    {
      NoDup(FavoritesGet()) && NoDup(HistoryGet()) && |HistoryGet()| <= HistoryCap
      && NoDup(SearchesGet()) && |SearchesGet()| <= SearchesCap
    }

    function FavoritesGet(): (r: seq<string>)
      reads this`favorites
      ensures favorites.Stored? ==> r == favorites.value
      ensures !favorites.Stored? ==> r == []
    {
      Read(favorites, [])
    }

    method FavoritesSet(ids: seq<string>)
      modifies this`favorites
      ensures favorites == Stored(ids) && FavoritesGet() == ids
    {
      favorites := Stored(ids);
    }

    method FavoritesAdd(id: string)
      modifies this`favorites
      ensures FavoritesGet() == AddOnce(old(FavoritesGet()), id)
      ensures id in old(FavoritesGet()) ==> favorites == old(favorites)
      ensures old(Tidy()) ==> Tidy()
    {
      var current := FavoritesGet();
      if id !in current {
        FavoritesSet(current + [id]);
      }
      if old(Tidy()) {
        AddOnceNoDup(old(FavoritesGet()), id);
      }
    }

    method FavoritesRemove(id: string)
      modifies this`favorites
      ensures favorites == Stored(Without(old(FavoritesGet()), id))
      ensures id !in FavoritesGet()
      ensures old(Tidy()) ==> Tidy()
    {
      var current := FavoritesGet();
      FavoritesSet(Without(current, id));
      if old(Tidy()) {
        WithoutNoDup(current, id);
      }
    }

    /** Removes `id` if present, else appends it; returns the new membership. */
    method FavoritesToggle(id: string) returns (isNow: bool)
      modifies this`favorites
      ensures isNow == (id !in old(FavoritesGet()))
      ensures isNow == (id in FavoritesGet())
      ensures FavoritesGet() == if isNow then old(FavoritesGet()) + [id] else Without(old(FavoritesGet()), id)
      ensures old(Tidy()) ==> Tidy()
    {
      var current := FavoritesGet();
      if id in current {
        FavoritesRemove(id);
        return false;
      } else {
        FavoritesAdd(id);
        return true;
      }
    }

    function HistoryGet(): (r: seq<string>)
      reads this`history
      ensures history.Stored? ==> r == history.value
      ensures !history.Stored? ==> r == []
    {
      Read(history, [])
    }

    method HistoryAdd(id: string)
      modifies this`history
      ensures history == Stored(Promote(old(HistoryGet()), id, HistoryCap))
      ensures HistoryGet()[0] == id && |HistoryGet()| <= HistoryCap
      ensures old(Tidy()) ==> Tidy()
    {
      var current := HistoryGet();
      var updated := Promote(current, id, HistoryCap);
      history := Stored(updated);
      if old(Tidy()) {
        PromoteNoDup(current, id, HistoryCap);
      }
    }

    function LanguageGet(): (r: string)
      reads this`language
      ensures r != ""
      ensures language.Some? && language.value != "" ==> r == language.value
      ensures language.None? || language.value == "" ==> r == DefaultLanguage
    {
      if language.Some? && language.value != "" then language.value else DefaultLanguage
    }

    method LanguageSet(lang: string)
      modifies this`language
      ensures language == Some(lang)
      ensures LanguageGet() == if lang == "" then DefaultLanguage else lang
    {
      language := Some(lang);
    }

    function SearchesGet(): (r: seq<string>)
      reads this`searches
      ensures searches.Stored? ==> r == searches.value
      ensures !searches.Stored? ==> r == []
    {
      Read(searches, [])
    }

    /** Stores the query exactly as given: no trimming happens here. */
    method SearchesAdd(query: string)
      modifies this`searches
      ensures searches == Stored(Promote(old(SearchesGet()), query, SearchesCap))
      ensures SearchesGet()[0] == query && |SearchesGet()| <= SearchesCap
      ensures old(Tidy()) ==> Tidy()
    {
      var current := SearchesGet();
      var updated := Promote(current, query, SearchesCap);
      searches := Stored(updated);
      if old(Tidy()) {
        PromoteNoDup(current, query, SearchesCap);
      }
    }

    function SubscriptionGet(): (r: Subscription)
      reads this`subscription
      ensures subscription.Stored? ==> r == subscription.value
      ensures !subscription.Stored? ==> r.tier == Free && r.features == []
    {
      Read(subscription, DefaultSubscription)
    }

    method SubscriptionSet(s: Subscription)
      modifies this`subscription
      ensures subscription == Stored(s) && SubscriptionGet() == s
    {
      subscription := Stored(s);
    }

    function StatsGet(): (r: UserStats)
      reads this`stats
      ensures stats.Stored? ==> r == stats.value
      ensures !stats.Stored? ==> r == UserStats(0, 0, 0, 0, 0)
    {
      Read(stats, ZeroStats)
    }

    /** Overwrites the statistics wholesale. */
    method StatsUpdate(s: UserStats)
      modifies this`stats
      ensures stats == Stored(s) && StatsGet() == s
    {
      stats := Stored(s);
    }

    /** `localStorage.getItem('vayara_has_launched')` is truthy. */
    predicate LaunchMarked()
      reads this`hasLaunched
    {
      hasLaunched.Some? && hasLaunched.value != ""
    }
  }
}

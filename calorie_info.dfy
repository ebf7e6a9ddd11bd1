/**
 * The calorie information screen: the constant food catalogue, the search
 * across all meal categories, the tab selection and the list title.
 */
module CalorieInfo {
  import opened Wrappers
  import opened JsText

  datatype Food = Food(name: string, calories: int)

  /** One entry of the catalogue object: a tab key and its foods. */
  datatype Meal = Meal(key: string, foods: seq<Food>)

  const Kahvalti: seq<Food> := [
    Food("Yumurta (1 adet)", 70),
    Food("Beyaz Peynir (30g)", 75),
    Food("Kaşar Peyniri (30g)", 110),
    Food("Zeytin (5 adet)", 30),
    Food("Tereyağı (1 tatlı kaşığı)", 35),
    Food("Bal (1 tatlı kaşığı)", 65),
    Food("Reçel (1 tatlı kaşığı)", 55),
    Food("Ekmek (1 dilim)", 70),
    Food("Simit (1 adet)", 250),
    Food("Börek (1 adet)", 300),
    Food("Süt (1 bardak)", 120),
    Food("Domates (1 adet)", 20),
    Food("Salatalık (1 adet)", 15)
  ]

  const Ogle: seq<Food> := [
    Food("Pilav (1 porsiyon)", 330),
    Food("Makarna (1 porsiyon)", 300),
    Food("Kırmızı Et (100g)", 250),
    Food("Tavuk (100g)", 165),
    Food("Balık (100g)", 180),
    Food("Salata (1 porsiyon)", 50),
    Food("Yoğurt (1 kase)", 150),
    Food("Çorba (1 kase)", 100),
    Food("Kuru Fasulye (1 porsiyon)", 280),
    Food("Nohut (1 porsiyon)", 290),
    Food("Patates Kızartması (1 porsiyon)", 400)
  ]

  const Aksam: seq<Food> := [
    Food("Pilav (1 porsiyon)", 330),
    Food("Makarna (1 porsiyon)", 300),
    Food("Kırmızı Et (100g)", 250),
    Food("Tavuk (100g)", 165),
    Food("Balık (100g)", 180),
    Food("Salata (1 porsiyon)", 50),
    Food("Yoğurt (1 kase)", 150),
    Food("Çorba (1 kase)", 100),
    Food("Mantı (1 porsiyon)", 350),
    Food("İmam Bayıldı (1 porsiyon)", 200),
    Food("Zeytinyağlı Sarma (5 adet)", 180)
  ]

  const Aburcubur: seq<Food> := [
    Food("Çikolata (1 küçük parça)", 70),
    Food("Gofret (1 adet)", 120),
    Food("Cips (1 paket)", 450),
    Food("Gazlı İçecek (1 kutu)", 140),
    Food("Meyve Suyu (1 bardak)", 120),
    Food("Badem (10 adet)", 70),
    Food("Ceviz (2 adet)", 100),
    Food("Fındık (10 adet)", 90),
    Food("Kuru Üzüm (1 avuç)", 80),
    Food("Kuru Kayısı (5 adet)", 70),
    Food("Dondurma (1 top)", 150),
    Food("Pasta (1 dilim)", 300),
    Food("Kurabiye (1 adet)", 50)
  ]

  const Meyveler: seq<Food> := [
    Food("Elma (1 orta boy)", 70),
    Food("Armut (1 orta boy)", 100),
    Food("Muz (1 adet)", 105),
    Food("Portakal (1 orta boy)", 60),
    Food("Mandalina (1 adet)", 40),
    Food("Karpuz (1 dilim)", 45),
    Food("Kavun (1 dilim)", 50),
    Food("Çilek (1 kase)", 45),
    Food("Kiraz (1 kase)", 85),
    Food("Üzüm (1 kase)", 100),
    Food("Şeftali (1 adet)", 60),
    Food("Kayısı (1 adet)", 17),
    Food("Ananas (1 dilim)", 40),
    Food("Avokado (1/2 adet)", 160)
  ]

  /** The catalogue object, its keys in declaration order. */
  const FoodData: seq<Meal> := [
    Meal("kahvalti", Kahvalti),
    Meal("ogle", Ogle),
    Meal("aksam", Aksam),
    Meal("aburcubur", Aburcubur),
    Meal("meyveler", Meyveler)
  ]

  const InitialTab: string := "kahvalti"

  /** The keys the five tab buttons set. */
  const TabKeys: seq<string> := ["kahvalti", "ogle", "aksam", "aburcubur", "meyveler"]

  const Pilav: Food := Food("Pilav (1 porsiyon)", 330)

  /** `Object.values(meals).flat()`: every meal's foods, meal after meal. */
  function Flatten(meals: seq<Meal>): (foods: seq<Food>)
    ensures forall i, f :: 0 <= i < |meals| && f in meals[i].foods ==> f in foods
    ensures forall f :: f in foods ==> exists i :: 0 <= i < |meals| && f in meals[i].foods
  {
    if meals == [] then [] else meals[0].foods + Flatten(meals[1..])
  }

  /** The whole catalogue in search order. */
  function AllFoods(): (foods: seq<Food>) {
    Flatten(FoodData)
  }

  /**
   * `foodData[tab]`: the foods under the first key equal to `tab`, or `undefined`
   * when no meal has that key (inherited property names count as absent).
   */
  function Lookup(meals: seq<Meal>, tab: string): (r: Option<seq<Food>>)
    ensures r.Some? <==> exists i :: 0 <= i < |meals| && meals[i].key == tab
    ensures r.Some? ==> exists i :: 0 <= i < |meals| && meals[i].key == tab && meals[i].foods == r.value
  {
    if meals == [] then None
    else if meals[0].key == tab then Some(meals[0].foods)
    else
      var r := Lookup(meals[1..], tab);
      assert forall i :: 1 <= i < |meals| ==> meals[i] == meals[1..][i - 1];
      r
  }

  function TabFoods(tab: string): (foods: Option<seq<Food>>) {
    Lookup(FoodData, tab)
  }

  /** The search test applied to each food: its lower-cased name includes the lower-cased query. */
  predicate Matches(food: Food, query: string) {
    Includes(ToLower(food.name), ToLower(query))
  }

  /** `items.filter(food => Matches(food, query))` */
  function Search(items: seq<Food>, query: string): (r: seq<Food>)
    ensures |r| <= |items|
    ensures forall k :: 0 <= k < |r| ==> Matches(r[k], query) && r[k] in items
  {
    if items == [] then []
    else if Matches(items[0], query) then [items[0]] + Search(items[1..], query)
    else Search(items[1..], query)
  }

  /** The list the screen shows: search results over all meals, or the active tab's list. */
  function FilteredFoods(activeTab: string, searchText: string): (shown: Option<seq<Food>>)
    ensures searchText != "" ==> shown.Some? && |shown.value| <= |AllFoods()|
    ensures searchText != "" ==>
              forall k :: 0 <= k < |shown.value| ==> Matches(shown.value[k], searchText) && shown.value[k] in AllFoods()
    ensures searchText == "" ==> shown == TabFoods(activeTab)
  {
    if searchText != "" then Some(Search(AllFoods(), searchText)) else TabFoods(activeTab)
  }

  /** The heading above the list. */
  function ListTitle(activeTab: string, searchText: string): (title: string)
    ensures searchText != "" <==> title == "Arama Sonuçları"
    ensures title == "Meyveler" <==>
              searchText == "" && activeTab !in ["kahvalti", "ogle", "aksam", "aburcubur"]
  {
    if searchText != "" then "Arama Sonuçları"
    else if activeTab == "kahvalti" then "Kahvaltı Besinleri"
    else if activeTab == "ogle" then "Öğle Yemeği Besinleri"
    else if activeTab == "aksam" then "Akşam Yemeği Besinleri"
    else if activeTab == "aburcubur" then "Atıştırmalıklar"
    else "Meyveler"
  }

  /** `r` keeps some of the elements of `s`, in their order in `s`. */
  predicate IsSubsequence(r: seq<Food>, s: seq<Food>) {
    if r == [] then true
    else if s == [] then false
    else (r[0] == s[0] && IsSubsequence(r[1..], s[1..])) || IsSubsequence(r, s[1..])
  }

  /** Search results keep the catalogue's order. */
  lemma {:induction false} SearchIsSubsequence(items: seq<Food>, query: string)
    ensures IsSubsequence(Search(items, query), items)
  {
    if items != [] {
      SearchIsSubsequence(items[1..], query);
      var rest := Search(items[1..], query);
      if Matches(items[0], query) {
        assert ([items[0]] + rest)[1..] == rest;
      }
    }
  }

  /** Each food occurs in the results as often as in the input if it matches, and not at all otherwise. */
  lemma {:induction false} SearchCounts(items: seq<Food>, query: string, f: Food)
    ensures multiset(Search(items, query))[f] == if Matches(f, query) then multiset(items)[f] else 0
  {
    if items != [] {
      SearchCounts(items[1..], query, f);
      var rest := Search(items[1..], query);
      assert items == [items[0]] + items[1..];
      assert multiset(items) == multiset{items[0]} + multiset(items[1..]);
      if Matches(items[0], query) {
        assert Search(items, query) == [items[0]] + rest;
        assert multiset([items[0]] + rest) == multiset{items[0]} + multiset(rest);
      } else {
        assert Search(items, query) == rest;
      }
    }
  }

  /** With a non-empty query, the search results are sound and complete over the whole catalogue. */
  lemma SearchSoundAndComplete(activeTab: string, searchText: string, f: Food)
    requires searchText != ""
    ensures FilteredFoods(activeTab, searchText).Some?
    ensures f in FilteredFoods(activeTab, searchText).value <==> f in AllFoods() && Matches(f, searchText)
    ensures multiset(FilteredFoods(activeTab, searchText).value)[f]
            == if Matches(f, searchText) then multiset(AllFoods())[f] else 0
    ensures IsSubsequence(FilteredFoods(activeTab, searchText).value, AllFoods())
  {
    SearchCounts(AllFoods(), searchText, f);
    SearchIsSubsequence(AllFoods(), searchText);
  }

  /** With an empty query, the list is the active tab's list, unchanged. */
  lemma TabListUnchanged(activeTab: string, i: nat)
    requires i < |FoodData| && FoodData[i].key == activeTab
    ensures FilteredFoods(activeTab, "") == Some(FoodData[i].foods)
  {
  }

  /** The search sees the query only through its lower-cased form. */
  lemma {:induction false} SearchDependsOnLowerCase(items: seq<Food>, q1: string, q2: string)
    requires ToLower(q1) == ToLower(q2)
    ensures Search(items, q1) == Search(items, q2)
  {
    if items != [] {
      SearchDependsOnLowerCase(items[1..], q1, q2);
    }
  }

  /** A query and its lower-cased form find the same foods. */
  lemma SearchSeesLowerCase(items: seq<Food>, query: string)
    ensures Search(items, query) == Search(items, ToLower(query))
  {
    ToLowerIdempotent(query);
    SearchDependsOnLowerCase(items, query, ToLower(query));
  }

  /** Two search texts with the same lower-case form show the same list. */
  lemma FilteredDependsOnLowerCase(activeTab: string, q1: string, q2: string)
    requires ToLower(q1) == ToLower(q2)
    ensures FilteredFoods(activeTab, q1) == FilteredFoods(activeTab, q2)
  {
    ToLowerLength(q1);
    ToLowerLength(q2);
    if q1 != "" {
      SearchDependsOnLowerCase(AllFoods(), q1, q2);
    }
  }

  /** Flattening the catalogue lists the five meals one after another. */
  lemma AllFoodsInOrder()
    ensures AllFoods() == Kahvalti + Ogle + Aksam + Aburcubur + Meyveler
  {
    var m := FoodData;
    assert Flatten(m[4..]) == Meyveler + Flatten(m[5..]);
    assert Flatten(m[3..]) == Aburcubur + Flatten(m[4..]);
    assert Flatten(m[2..]) == Aksam + Flatten(m[3..]);
    assert Flatten(m[1..]) == Ogle + Flatten(m[2..]);
    assert Flatten(m) == Kahvalti + Flatten(m[1..]);
  }

  /** Every food in `foods` has a positive calorie value. */
  predicate AllPositive(foods: seq<Food>) {
    forall k :: 0 <= k < |foods| ==> foods[k].calories > 0
  }

  /** The catalogue holds 62 foods, each with a positive calorie value. */
  lemma CatalogueShape()
    ensures |AllFoods()| == 62
    ensures forall f :: f in AllFoods() ==> f.calories > 0
  {
    AllFoodsInOrder();
    assert AllPositive(Kahvalti) && AllPositive(Ogle) && AllPositive(Aksam);
    assert AllPositive(Aburcubur) && AllPositive(Meyveler);
    var all := Kahvalti + Ogle + Aksam + Aburcubur + Meyveler;
    assert AllPositive(all);
  }

  /** A search result is never longer than the catalogue. */
  lemma SearchBounded(activeTab: string, searchText: string)
    requires searchText != ""
    ensures |FilteredFoods(activeTab, searchText).value| <= 62
  {
    CatalogueShape();
  }

  /** Pilav opens the lunch and the dinner lists and appears nowhere else in them. */
  lemma PilavHeadsLunchAndDinner()
    ensures Ogle[0] == Pilav && Pilav !in Ogle[1..]
    ensures Aksam[0] == Pilav && Pilav !in Aksam[1..]
  {
  }

  /** Pilav is not a breakfast food, a snack or a fruit. */
  lemma PilavNotInOtherMeals()
    ensures Pilav !in Kahvalti && Pilav !in Aburcubur && Pilav !in Meyveler
  {
  }

  /** A list that starts with `f` and has no other `f` holds it once. */
  lemma OnceAtHead(s: seq<Food>, f: Food)
    requires s != [] && s[0] == f && f !in s[1..]
    ensures multiset(s)[f] == 1
  {
    assert s == [f] + s[1..];
  }

  /** Pilav is listed twice in the catalogue: once for lunch and once for dinner. */
  lemma PilavListedTwice()
    ensures multiset(AllFoods())[Pilav] == 2
  {
    AllFoodsInOrder();
    PilavHeadsLunchAndDinner();
    PilavNotInOtherMeals();
    OnceAtHead(Ogle, Pilav);
    OnceAtHead(Aksam, Pilav);
    MultisetOfFive(Kahvalti, Ogle, Aksam, Aburcubur, Meyveler);
  }

  lemma MultisetOfFive(a: seq<Food>, b: seq<Food>, c: seq<Food>, d: seq<Food>, e: seq<Food>)
    ensures multiset(a + b + c + d + e) == multiset(a) + multiset(b) + multiset(c) + multiset(d) + multiset(e)
  {
  }

  /** A query that matches Pilav returns it twice. */
  lemma PilavTwice(query: string)
    requires query != "" && Matches(Pilav, query)
    ensures multiset(FilteredFoods(InitialTab, query).value)[Pilav] == 2
  {
    PilavListedTwice();
    SearchCounts(AllFoods(), query, Pilav);
  }

  /** A food whose lower-cased name starts with the lower-cased query matches it. */
  lemma PrefixMatches(food: Food, query: string, n: nat)
    requires n <= |food.name| && ToLower(food.name[..n]) == ToLower(query)
    ensures Matches(food, query)
  {
    var name := food.name;
    assert name == name[..n] + name[n..];
    ToLowerAppend(name[..n], name[n..]);
    assert OccursAt(ToLower(name), ToLower(query), 0);
    IncludesIsOccurs(ToLower(name), ToLower(query));
  }

  /** The query "pilav" matches Pilav, so by `PilavTwice` it lists Pilav twice. */
  lemma PilavQuery()
    ensures Matches(Pilav, "pilav")
  {
    assert Pilav.name[..5] == "Pilav";
    assert ToLower("Pilav") == "pilav" == ToLower("pilav");
    PrefixMatches(Pilav, "pilav", 5);
  }

  /** The screen opens on the breakfast tab, showing its 13 foods under their title. */
  lemma InitialScreen()
    ensures FilteredFoods(InitialTab, "") == Some(Kahvalti)
    ensures ListTitle(InitialTab, "") == "Kahvaltı Besinleri"
  {
  }

  /** Every tab button selects a key the catalogue defines. */
  lemma EveryTabDefined(tab: string)
    requires tab in TabKeys
    ensures TabFoods(tab).Some?
    ensures ListTitle(tab, "") != "Arama Sonuçları"
  {
    assert FoodData[0].key == "kahvalti" && FoodData[1].key == "ogle" && FoodData[2].key == "aksam";
    assert FoodData[3].key == "aburcubur" && FoodData[4].key == "meyveler";
  }

  /**
   * Each tab button's list gets its own heading: five different headings, none
   * of them the search heading, with 'Meyveler' for the fruit tab.
   */
  lemma TabTitles()
    ensures ListTitle("kahvalti", "") == "Kahvaltı Besinleri"
    ensures ListTitle("ogle", "") == "Öğle Yemeği Besinleri"
    ensures ListTitle("aksam", "") == "Akşam Yemeği Besinleri"
    ensures ListTitle("aburcubur", "") == "Atıştırmalıklar"
    ensures ListTitle("meyveler", "") == "Meyveler"
    ensures forall t :: t in TabKeys ==> ListTitle(t, "") != "Arama Sonuçları"
    ensures forall t1, t2 :: t1 in TabKeys && t2 in TabKeys && ListTitle(t1, "") == ListTitle(t2, "") ==> t1 == t2
  {
  }
}

/**
 * The tier tables: the class index the classifier predicts is looked up in
 * PRICE_RANGES, PRICE_COLORS and PRICE_ICONS, and in POPULAR_MODELS, whose
 * entries are laid out over a grid of five columns.
 */
module Tables {
  import opened Outcomes

  /** PRICE_RANGES: the label of each tier. */
  const PriceRanges: map<int, string> :=
    map[0 := "Budget", 1 := "Mid-Range", 2 := "Premium", 3 := "Luxury"]

  /** PRICE_COLORS: the accent colour of each tier. */
  const PriceColors: map<int, string> :=
    map[0 := "#10b981", 1 := "#f59e0b", 2 := "#ef4444", 3 := "#8b5cf6"]

  /** PRICE_ICONS: the icon of each tier (money bag, money with wings, credit card, bank). */
  const PriceIcons: map<int, string> :=
    map[0 := "\U{1F4B0}", 1 := "\U{1F4B8}", 2 := "\U{1F4B3}", 3 := "\U{1F3E6}"]

  /** The four tier labels, in class-index order. */
  const TierNames: seq<string> := ["Budget", "Mid-Range", "Premium", "Luxury"]

  /** Subscripting a dictionary with an integer key: a missing key raises KeyError. */
  function Lookup<V>(table: map<int, V>, key: int): (r: Result<V>)
    ensures r.Success? <==> key in table
    ensures r.Success? ==> r.value == table[key]
    ensures r.Failure? ==> r.error == KeyError(key)
  {
    if key in table then Success(table[key]) else Failure(KeyError(key))
  }

  /** What the result card shows for a tier. */
  datatype Tier = Tier(priceRange: string, color: string, icon: string)

  /** The three lookups of the predicted class, in the order the page makes them; the first to miss raises. */
  function Describe(prediction: int): (r: Result<Tier>)
  {
    match Lookup(PriceRanges, prediction)
    case Failure(e) => Failure(e)
    case Success(range) =>
      match Lookup(PriceColors, prediction)
      case Failure(e) => Failure(e)
      case Success(color) =>
        match Lookup(PriceIcons, prediction)
        case Failure(e) => Failure(e)
        case Success(icon) => Success(Tier(range, color, icon))
  }

  /**
   * The lookups succeed exactly on the classes 0, 1, 2 and 3, naming them
   * Budget, Mid-Range, Premium and Luxury; any other class is a KeyError on
   * that class.
   */
  lemma DescribeDefinedOnTiers(prediction: int)
    ensures Describe(prediction).Success? <==> 0 <= prediction < 4
    ensures Describe(prediction).Success? ==> Describe(prediction).value.priceRange == TierNames[prediction]
    ensures Describe(prediction).Failure? ==> Describe(prediction).error == KeyError(prediction)
  {
    assert prediction in PriceRanges <==> 0 <= prediction < 4;
    if 0 <= prediction < 4 {
      assert prediction in PriceColors && prediction in PriceIcons;
    }
  }

  /** Two different tiers differ in label, in colour and in icon. */
  lemma TiersDistinguishable(a: int, b: int)
    requires Describe(a).Success? && Describe(b).Success? && a != b
    ensures Describe(a).value.priceRange != Describe(b).value.priceRange
    ensures Describe(a).value.color != Describe(b).value.color
    ensures Describe(a).value.icon != Describe(b).value.icon
  {
    DescribeDefinedOnTiers(a);
    DescribeDefinedOnTiers(b);
  }

  // ---------------------------------------------------------------------
  // Popular models and their grid
  // ---------------------------------------------------------------------

  /** One entry of POPULAR_MODELS. */
  datatype PhoneModel = PhoneModel(name: string, price: string, image: string)

  /** POPULAR_MODELS: five example handsets per tier. */
  const PopularModels: map<int, seq<PhoneModel>> := map[
    0 := [
      PhoneModel("Samsung Galaxy A14", "$180", "images/galaxya14.png"),
      PhoneModel("Xiaomi Redmi 12", "$160", "images/redmi12.png"),
      PhoneModel("Nokia G42", "$200", "images/g42.png"),
      PhoneModel("Motorola Moto G14", "$150", "images/motorolag14.png"),
      PhoneModel("Realme C55", "$170", "images/realmeC55.png")],
    1 := [
      PhoneModel("Google Pixel 7a", "$499", "images/pixel7a.png"),
      PhoneModel("Samsung Galaxy A54", "$449", "images/galaxya54.png"),
      PhoneModel("iPhone SE (2022)", "$429", "images/iphonese.png"),
      PhoneModel("OnePlus Nord 3", "$479", "images/nord3.png"),
      PhoneModel("Xiaomi Poco F5", "$399", "images/pocof5.png")],
    2 := [
      PhoneModel("iPhone 15", "$799", "images/iphone15.png"),
      PhoneModel("Samsung Galaxy S23", "$799", "images/galaxys23.png"),
      PhoneModel("Google Pixel 8", "$699", "images/pixel8.png"),
      PhoneModel("OnePlus 11", "$699", "images/oneplus11.png"),
      PhoneModel("Xiaomi 13", "$749", "images/xiaomi13.png")],
    3 := [
      PhoneModel("iPhone 15 Pro Max", "$1,199", "images/iphone15promax.png"),
      PhoneModel("Samsung Galaxy S23 Ultra", "$1,199", "images/galaxys23ultra.png"),
      PhoneModel("Google Pixel Fold", "$1,799", "images/pixelfold.png"),
      PhoneModel("Samsung Galaxy Z Fold5", "$1,799", "images/zfold5.png"),
      PhoneModel("Huawei Mate X3", "$1,999", "images/matex3.png")]]

  /** POPULAR_MODELS.get(prediction, []): the tier's entries, or none for an unknown class. */
  function ModelsFor(prediction: int): (r: seq<PhoneModel>)
    ensures |r| == (if 0 <= prediction < 4 then 5 else 0)
    ensures 0 <= prediction < 4 ==> r == PopularModels[prediction]
  {
    if prediction in PopularModels then PopularModels[prediction] else []
  }

  /** The number of columns the page lays the models out in. */
  const GridWidth: nat := 5

  /** The entries of `models` whose index is c modulo five, in list order: what column c shows. */
  function GridColumn(models: seq<PhoneModel>, c: nat): seq<PhoneModel>
  {
    if models == [] then []
    else
      var n := |models| - 1;
      GridColumn(models[..n], c) + (if n % GridWidth == c then [models[n]] else [])
  }

  /**
   * Column c (c < 5) of the grid holds (|models| + 4 - c) / 5 entries, and
   * its k-th entry is models[5 * k + c].
   */
  lemma {:induction false} GridColumnAt(models: seq<PhoneModel>, c: nat)
    requires c < GridWidth
    ensures |GridColumn(models, c)| == (|models| + GridWidth - 1 - c) / GridWidth
    ensures forall k :: 0 <= k < |GridColumn(models, c)| ==>
              GridWidth * k + c < |models| && GridColumn(models, c)[k] == models[GridWidth * k + c]
    decreases |models|
  {
    if models != [] {
      var n := |models| - 1;
      var prefix := models[..n];
      GridColumnAt(prefix, c);
      var q, m := n / GridWidth, n % GridWidth;
      assert n == GridWidth * q + m && 0 <= m < GridWidth;
      var len := |GridColumn(prefix, c)|;
      if m == c {
        assert len == q by {
          assert n + GridWidth - 1 - c == GridWidth * q + (GridWidth - 1);
        }
      } else if m < c {
        assert len == q && (n + 1 + GridWidth - 1 - c) / GridWidth == q by {
          assert n + GridWidth - 1 - c == GridWidth * q + (GridWidth - 1 + m - c);
          assert n + 1 + GridWidth - 1 - c == GridWidth * q + (GridWidth + m - c);
        }
      } else {
        assert len == q + 1 && (n + 1 + GridWidth - 1 - c) / GridWidth == q + 1 by {
          assert n + GridWidth - 1 - c == GridWidth * (q + 1) + (m - c - 1);
          assert n + 1 + GridWidth - 1 - c == GridWidth * (q + 1) + (m - c);
        }
      }
    }
  }

  /** Every entry is shown: models[i] is entry i / 5 of column i % 5. */
  lemma EveryModelPlaced(models: seq<PhoneModel>, i: nat)
    requires i < |models|
    ensures i % GridWidth < GridWidth
    ensures i / GridWidth < |GridColumn(models, i % GridWidth)|
    ensures GridColumn(models, i % GridWidth)[i / GridWidth] == models[i]
  {
    var q, c := i / GridWidth, i % GridWidth;
    GridColumnAt(models, c);
    assert i == GridWidth * q + c;
    assert (|models| + GridWidth - 1 - c) / GridWidth >= q + 1 by {
      assert |models| + GridWidth - 1 - c >= GridWidth * (q + 1);
    }
  }

  /** A tier's five models fill the grid one per column, in list order. */
  lemma TierGridOnePerColumn(prediction: int, c: nat)
    requires 0 <= prediction < 4 && c < GridWidth
    ensures GridColumn(ModelsFor(prediction), c) == [ModelsFor(prediction)[c]]
  {
    GridColumnAt(ModelsFor(prediction), c);
  }

  /**
   * The grid loop: column idx % 5 receives each model in turn. The result
   * lists the five columns' contents.
   */
  method PlaceInGrid(models: seq<PhoneModel>) returns (columns: seq<seq<PhoneModel>>)
    ensures |columns| == GridWidth
    ensures forall c :: 0 <= c < GridWidth ==> columns[c] == GridColumn(models, c)
  {
    var cols := new seq<PhoneModel>[GridWidth](_ => []);
    for idx := 0 to |models|
      invariant forall c :: 0 <= c < GridWidth ==> cols[c] == GridColumn(models[..idx], c)
    {
      assert models[..idx + 1][..idx] == models[..idx];
      cols[idx % GridWidth] := cols[idx % GridWidth] + [models[idx]];
    }
    assert models[..|models|] == models;
    columns := cols[..];
  }
}

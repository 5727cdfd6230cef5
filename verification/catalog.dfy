/** The product listing (app/products/page.tsx) over the shipped catalog
    (lib/products.ts): a category filter whose selection is a string, 'all'
    by default. */
module Catalog {
  import opened Types
  import Seqs

  /** The catalog as shipped. */
  const Products: seq<Product> := [
      Product("1",
        LocalizedText("عود ملكي", "Oud Royal", "Royal Oud"),
        LocalizedText("عطر شرقي فاخر يجمع بين العود الطبيعي والمسك الأبيض", "Parfum oriental luxueux combinant oud naturel et musc blanc", "Luxurious oriental fragrance combining natural oud and white musk"),
        899, "/perfumes/oud-royal.svg", Oriental),
      Product("2",
        LocalizedText("ياسمين الليل", "Jasmin de Nuit", "Night Jasmine"),
        LocalizedText("عطر زهري رومانسي بنفحات الياسمين والفانيليا", "Parfum floral romantique aux notes de jasmin et vanille", "Romantic floral fragrance with jasmine and vanilla notes"),
        749, "/perfumes/jasmine.svg", Floral),
      Product("3",
        LocalizedText("خشب الصندل", "Bois de Santal", "Sandalwood"),
        LocalizedText("عطر خشبي دافئ مع لمسات من الأرز والباتشولي", "Parfum boisé chaleureux avec des touches de cèdre et patchouli", "Warm woody fragrance with cedar and patchouli touches"),
        799, "/perfumes/sandalwood.svg", Woody),
      Product("4",
        LocalizedText("برغموت الصيف", "Bergamote d'Été", "Summer Bergamot"),
        LocalizedText("عطر حمضي منعش بنفحات البرغموت والليمون", "Parfum citrus rafraîchissant aux notes de bergamote et citron", "Refreshing citrus fragrance with bergamot and lemon notes"),
        649, "/perfumes/bergamot.svg", Citrus),
      Product("5",
        LocalizedText("وردة دمشق", "Rose de Damas", "Damascus Rose"),
        LocalizedText("عطر زهري فاخر من الورد الدمشقي الأصيل", "Parfum floral luxueux de rose de Damas authentique", "Luxurious floral fragrance from authentic Damascus rose"),
        849, "/perfumes/damascus-rose.svg", Floral),
      Product("6",
        LocalizedText("عنبر ذهبي", "Ambre Doré", "Golden Amber"),
        LocalizedText("عطر شرقي دافئ بنفحات العنبر والفانيليا", "Parfum oriental chaleureux aux notes d'ambre et vanille", "Warm oriental fragrance with amber and vanilla notes"),
        879, "/perfumes/amber.svg", Oriental),
      Product("7",
        LocalizedText("أرز الأطلس", "Cèdre de l'Atlas", "Atlas Cedar"),
        LocalizedText("عطر خشبي قوي مستوحى من غابات الأرز", "Parfum boisé puissant inspiré des forêts de cèdre", "Powerful woody fragrance inspired by cedar forests"),
        779, "/perfumes/cedar.svg", Woody),
      Product("8",
        LocalizedText("نيرولي الربيع", "Néroli Printanier", "Spring Neroli"),
        LocalizedText("عطر حمضي زهري منعش بنفحات النيرولي وزهر البرتقال", "Parfum citrus floral rafraîchissant aux notes de néroli et fleur d'oranger", "Refreshing citrus floral fragrance with neroli and orange blossom notes"),
        699, "/perfumes/neroli.svg", Citrus)
    ]

  /** The selection that shows every product. */
  const All: string := "all"

  /** The test the listing filters with for a selection other than 'all'. */
  function InCategory(selected: string): Product -> bool {
    (p: Product) => CategoryCode(p.category) == selected
  }

  /** `filteredProducts`: the whole catalog for 'all', otherwise the products
      whose category tag equals the selection, in catalog order. */
  function FilterProducts(catalog: seq<Product>, selected: string): (r: seq<Product>)
    ensures selected == All ==> r == catalog
    ensures |r| <= |catalog|
    ensures selected != All ==> forall i :: 0 <= i < |r| ==> CategoryCode(r[i].category) == selected
    ensures selected != All ==> Seqs.IsSubsequence(r, catalog)
    ensures selected != All ==> forall p: Product :: p in r <==> p in catalog && CategoryCode(p.category) == selected
    ensures selected != All ==> forall p: Product :: CategoryCode(p.category) == selected ==>
              multiset(r)[p] == multiset(catalog)[p]
  {
    if selected == All then catalog
    else
      Seqs.FilterMembership(catalog, InCategory(selected));
      Seqs.FilterCounts(catalog, InCategory(selected));
      Seqs.FilterIsSubsequence(catalog, InCategory(selected));
      Seqs.Filter(catalog, InCategory(selected))
  }

  /** The "no products" message shows exactly when the filtered list is empty. */
  predicate ShowsNoProducts(catalog: seq<Product>, selected: string) {
    |FilterProducts(catalog, selected)| == 0
  }

  /** A selection no catalog product carries empties the listing; with
      'all' the message shows only for an empty catalog. */
  lemma NoMatchShowsNoProducts(catalog: seq<Product>, selected: string)
    ensures (selected != All &&
             forall i :: 0 <= i < |catalog| ==> CategoryCode(catalog[i].category) != selected) ==>
              ShowsNoProducts(catalog, selected)
    ensures selected == All ==> (ShowsNoProducts(catalog, selected) <==> catalog == [])
    ensures ShowsNoProducts(catalog, selected) ==>
              forall i :: 0 <= i < |catalog| ==> CategoryCode(catalog[i].category) != selected || selected == All
  {
    if selected != All && ShowsNoProducts(catalog, selected) {
      forall i | 0 <= i < |catalog|
        ensures CategoryCode(catalog[i].category) != selected
      {
        assert catalog[i] in catalog;
      }
    }
  }

  /** The ids of a list of products, in order. */
  function Ids(ps: seq<Product>): seq<string> {
    seq(|ps|, i requires 0 <= i < |ps| => ps[i].id)
  }

  /** The categories of the shipped catalog, in order. */
  const Layout: seq<Category> := [Oriental, Floral, Woody, Citrus, Floral, Oriental, Woody, Citrus]

  lemma Below8(i: int)
    requires 0 <= i < 8
    ensures i == 0 || i == 1 || i == 2 || i == 3 || i == 4 || i == 5 || i == 6 || i == 7
  {
  }

  lemma ShippedLayout()
    ensures |Products| == 8
    ensures forall i :: 0 <= i < 8 ==> Products[i].category == Layout[i]
    ensures Products[0].id == "1" && Products[1].id == "2" && Products[2].id == "3"
    ensures Products[3].id == "4" && Products[4].id == "5" && Products[5].id == "6"
    ensures Products[6].id == "7" && Products[7].id == "8"
  {
    forall i | 0 <= i < 8
      ensures Products[i].category == Layout[i]
    {
      Below8(i);
    }
  }

  /** Where each category sits in the shipped layout. */
  lemma LayoutPositions(c: Category) returns (a: nat, b: nat)
    ensures a < b < 8
    ensures forall i :: 0 <= i < 8 ==> (Layout[i] == c <==> i == a || i == b)
    ensures (a, b) == match c case Oriental => (0, 5) case Floral => (1, 4) case Woody => (2, 6) case Citrus => (3, 7)
  {
    a, b := match c case Oriental => 0 case Floral => 1 case Woody => 2 case Citrus => 3,
            match c case Oriental => 5 case Floral => 4 case Woody => 6 case Citrus => 7;
    forall i | 0 <= i < 8
      ensures Layout[i] == c <==> i == a || i == b
    {
      Below8(i);
    }
  }

  /** Filtering an eight-product catalog by a category carried at exactly
      positions `a` and `b` keeps those two products. */
  lemma TwoOfEight(catalog: seq<Product>, c: Category, a: nat, b: nat)
    requires |catalog| == 8 && a < b < 8
    requires forall i :: 0 <= i < 8 ==> (catalog[i].category == c <==> i == a || i == b)
    ensures FilterProducts(catalog, CategoryCode(c)) == [catalog[a], catalog[b]]
  {
    var keep := InCategory(CategoryCode(c));
    forall i | 0 <= i < 8
      ensures keep(catalog[i]) <==> i == a || i == b
    {
      CategoryCodeInjective(catalog[i].category, c);
    }
    Seqs.FilterTwo(catalog, keep, a, b);
    assert CategoryCode(c) != All;
  }

  lemma CategoryCodeInjective(c: Category, d: Category)
    ensures CategoryCode(c) == CategoryCode(d) <==> c == d
  {
  }

  /** In a catalog laid out like the shipped one, every category selects
      exactly two products: the ones at its two layout positions. */
  lemma CategoriesOfLayout(catalog: seq<Product>, c: Category)
    requires |catalog| == 8 && forall i :: 0 <= i < 8 ==> catalog[i].category == Layout[i]
    ensures |FilterProducts(catalog, CategoryCode(c))| == 2
    ensures Ids(FilterProducts(catalog, CategoryCode(c))) == match c
      case Oriental => [catalog[0].id, catalog[5].id]
      case Floral => [catalog[1].id, catalog[4].id]
      case Woody => [catalog[2].id, catalog[6].id]
      case Citrus => [catalog[3].id, catalog[7].id]
  {
    var a, b := LayoutPositions(c);
    TwoOfEight(catalog, c, a, b);
  }

  /** In the shipped catalog every category selects exactly two products. */
  lemma ShippedCategory(c: Category)
    ensures |FilterProducts(Products, CategoryCode(c))| == 2
    ensures Ids(FilterProducts(Products, CategoryCode(c))) == match c
      case Oriental => ["1", "6"]
      case Floral => ["2", "5"]
      case Woody => ["3", "7"]
      case Citrus => ["4", "8"]
  {
    ShippedLayout();
    CategoriesOfLayout(Products, c);
  }
}

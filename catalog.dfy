/**
 * The static product catalog (`PRODUCTS`) and the search filter the home page
 * shows (`filteredProducts`).
 */
module Catalog {
  import opened Text
  import opened Sequences

  /** A catalog entry; prices are whole rupees. */
  datatype Product = Product(id: int, name: string, price: int, image: string, contents: seq<string>)

  const BacardiLemonRumKit := Product(1, "BACARDI LEMON RUM KIT", 1150,
    "https://images.unsplash.com/photo-1514362545857-3bc16c4c7d1b?auto=format&fit=crop&q=80&w=800",
    ["Bacardi Lemon Rum – 375 ml", "Lemonade – 500 ml", "Campa Lemon Flavoured – 185 ml", "Soda or Sprite", "Lemon slices – 4", "Chupa Chups", "Ice"])

  const MagicMomentsOrangeKit := Product(2, "MAGIC MOMENTS ORANGE KIT", 850,
    "https://images.unsplash.com/photo-1536935338213-d2c123348f0e?auto=format&fit=crop&q=80&w=800",
    ["Magic Moments Orange Vodka – 375 ml", "Fresh Lemonade – 500 ml", "Orange Juice – 200 ml", "Soda or Sprite", "Orange slices – 4", "Chupa Chups", "Ice"])

  const CranberryVodkaKit := Product(3, "CRANBERRY VODKA KIT", 1000,
    "https://images.unsplash.com/photo-1544145945-f904253d0c71?auto=format&fit=crop&q=80&w=800",
    ["Cranberry Vodka – 320 ml", "Cranberry Juice", "Sprite – 200 ml", "Lemon Juice – 500 ml", "Fruit slices – 4", "Chupa Chups", "Ice"])

  const MagicMomentsGreenAppleKit := Product(4, "MAGIC MOMENTS GREEN APPLE KIT", 850,
    "https://images.unsplash.com/photo-1551024709-8f23befc6f87?auto=format&fit=crop&q=80&w=800",
    ["Green Apple Vodka – 375 ml", "Lemon Juice – 500 ml", "Apple slices – 4", "Sprite – 200 ml", "Ice", "Apple-flavoured lollipops – 2"])

  const FruitPunchKit := Product(5, "THE FRUIT PUNCH KIT", 1000,
    "https://images.unsplash.com/photo-1497534446932-c925b458314e?auto=format&fit=crop&q=80&w=800",
    ["Any Vodka", "Assorted fresh fruits", "Lemonade juice", "Ice"])

  /** `PRODUCTS`, in the order the home page lists them. */
  const Products: seq<Product> :=
    [BacardiLemonRumKit, MagicMomentsOrangeKit, CranberryVodkaKit, MagicMomentsGreenAppleKit, FruitPunchKit]

  /** No two catalog entries share an id, and every price is positive. */
  lemma CatalogWellFormed()
    ensures forall i, j :: 0 <= i < j < |Products| ==> Products[i].id != Products[j].id
    ensures forall i :: 0 <= i < |Products| ==> Products[i].price > 0
  {
  }

  /** Within the catalog a product is determined by its id. */
  lemma CatalogIdDetermines(p: Product, q: Product)
    requires p in Products && q in Products && p.id == q.id
    ensures p == q
  {
  }

  /** `p.name.toLowerCase().includes(query.toLowerCase())`. */
  predicate Matches(p: Product, query: string)
    ensures query == "" ==> Matches(p, query)
    ensures Matches(p, query) ==> |query| <= |p.name|
  {
    Contains(ToLower(p.name), ToLower(query))
  }

  /** `ps.filter(p => Matches(p, query))`. */
  function Filter(ps: seq<Product>, query: string): (r: seq<Product>)
    ensures forall p :: p in r <==> p in ps && Matches(p, query)
    ensures |r| <= |ps|
  {
    if ps == [] then []
    else if Matches(ps[0], query) then [ps[0]] + Filter(ps[1..], query)
    else Filter(ps[1..], query)
  }

  /** The filter keeps catalog order. */
  lemma {:induction false} FilterKeepsOrder(ps: seq<Product>, query: string)
    ensures IsSubsequence(Filter(ps, query), ps)
  {
    if ps != [] {
      FilterKeepsOrder(ps[1..], query);
    }
  }

  /** An empty search box shows the whole catalog. */
  lemma {:induction false} FilterEmptyQuery(ps: seq<Product>)
    ensures Filter(ps, "") == ps
  {
    if ps != [] {
      assert Matches(ps[0], "");
      FilterEmptyQuery(ps[1..]);
    }
  }

  /** A name without the letter v, in either case, never matches "vodka". */
  lemma NoVodka(p: Product)
    requires 'v' !in p.name && 'V' !in p.name
    ensures !Matches(p, "vodka")
  {
    var name := ToLower(p.name);
    assert ToLower("vodka") == "vodka";
    assert 'v' !in name by {
      forall i | 0 <= i < |name| ensures name[i] != 'v' {
        assert p.name[i] != 'V' && p.name[i] != 'v';
      }
    }
    if Contains(name, "vodka") {
      ContainsChar(name, "vodka", 'v');
    }
  }

  // The four kits without the letter v in their names, stated one kit at a time so
  // that each proof looks at a single name.
  lemma BacardiSkipsVodka() ensures !Matches(BacardiLemonRumKit, "vodka") { NoVodka(BacardiLemonRumKit); }
  lemma OrangeSkipsVodka() ensures !Matches(MagicMomentsOrangeKit, "vodka") { NoVodka(MagicMomentsOrangeKit); }
  lemma GreenAppleSkipsVodka() ensures !Matches(MagicMomentsGreenAppleKit, "vodka") { NoVodka(MagicMomentsGreenAppleKit); }
  lemma FruitPunchSkipsVodka() ensures !Matches(FruitPunchKit, "vodka") { NoVodka(FruitPunchKit); }

  /** The cranberry vodka kit matches "vodka": its lower-cased name holds it at position 10. */
  lemma CranberryMatchesVodka()
    ensures Matches(CranberryVodkaKit, "vodka")
  {
    var name := ToLower("CRANBERRY VODKA KIT");
    assert name[10..15] == "vodka";
    assert OccursAt(name, ToLower("vodka"), 10);
    ContainsIff(name, ToLower("vodka"));
  }

  /** Searching "vodka" shows only the cranberry vodka kit. */
  lemma FilterVodka()
    ensures Filter(Products, "vodka") == [CranberryVodkaKit]
  {
    BacardiSkipsVodka();
    OrangeSkipsVodka();
    GreenAppleSkipsVodka();
    FruitPunchSkipsVodka();
    CranberryMatchesVodka();
    OnlyMiddleMatches(BacardiLemonRumKit, MagicMomentsOrangeKit, CranberryVodkaKit,
                      MagicMomentsGreenAppleKit, FruitPunchKit, "vodka");
  }

  /** Filtering five entries of which only the middle one matches. */
  lemma OnlyMiddleMatches(a: Product, b: Product, c: Product, d: Product, e: Product, query: string)
    requires !Matches(a, query) && !Matches(b, query) && Matches(c, query)
    requires !Matches(d, query) && !Matches(e, query)
    ensures Filter([a, b, c, d, e], query) == [c]
  {
    assert [e][1..] == [];
    assert Filter([e], query) == [];
    assert [d, e][1..] == [e];
    assert Filter([d, e], query) == [];
    assert [c, d, e][1..] == [d, e];
    assert Filter([c, d, e], query) == [c];
    assert [b, c, d, e][1..] == [c, d, e];
    assert Filter([b, c, d, e], query) == [c];
    assert [a, b, c, d, e][1..] == [b, c, d, e];
  }
}

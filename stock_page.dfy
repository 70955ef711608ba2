/**
 * The inventory page: search over the product list, grouping by
 * category, stock changes with an optimistic update of the cached list
 * and its rollback, price validation, and the page's own category icons.
 * The cached list is react-query's entry for the `products` key; toasts
 * are left out.
 */
module StockPage {
  import opened Js
  import opened Types
  import ProductCard
  import UrlForm

  // ---------------------------------------------------------------- search

  /**
   * `matchesSearch`: a blank query (empty after `trim`) matches
   * everything; otherwise the trimmed, lower-cased query must occur in
   * the lower-cased name, description or category.
   */
  predicate MatchesSearch(p: Product, query: string)
    ensures MatchesSearch(p, query) && Trim(query) != "" ==>
      |Trim(query)| <= |p.name| || |Trim(query)| <= |p.description| || |Trim(query)| <= |p.category|
  {
    if Trim(query) == "" then true
    else
      var q := Lower(Trim(query));
      IncludesNoLonger(Lower(p.name), q);
      IncludesNoLonger(Lower(p.description), q);
      IncludesNoLonger(Lower(p.category), q);
      Includes(Lower(p.name), q) || Includes(Lower(p.description), q) || Includes(Lower(p.category), q)
  }

  /** `q` occurs in `s` starting at index `i`. */
  predicate OccursAt(s: string, q: string, i: int)
  {
    0 <= i <= |s| - |q| && q <= s[i..]
  }

  /** `q` occurs at some index of the lower-cased name, description or category. */
  ghost predicate Found(p: Product, q: string)
  {
    || (exists i :: OccursAt(Lower(p.name), q, i))
    || (exists i :: OccursAt(Lower(p.description), q, i))
    || (exists i :: OccursAt(Lower(p.category), q, i))
  }

  /** A blank or whitespace-only query matches every product. */
  lemma BlankQueryMatchesAll(p: Product, query: string)
    requires Trim(query) == ""
    ensures MatchesSearch(p, query)
  {
  }

  /**
   * For a non-blank query, a product matches exactly when the trimmed,
   * lower-cased query is found at some index of one of its fields.
   */
  lemma MatchesSearchIff(p: Product, query: string)
    requires Trim(query) != ""
    ensures MatchesSearch(p, query) <==> Found(p, Lower(Trim(query)))
  {
    var q := Lower(Trim(query));
    assert MatchesSearch(p, query) == (Includes(Lower(p.name), q) || Includes(Lower(p.description), q) || Includes(Lower(p.category), q));
    IncludesAt(Lower(p.name), q);
    IncludesAt(Lower(p.description), q);
    IncludesAt(Lower(p.category), q);
  }

  lemma IncludesAt(s: string, q: string)
    ensures Includes(s, q) <==> exists i :: OccursAt(s, q, i)
  {
    IncludesIff(s, q);
    if Includes(s, q) {
      var i :| 0 <= i <= |s| - |q| && q <= s[i..];
      assert OccursAt(s, q, i);
    }
  }

  /** Surrounding whitespace in the query makes no difference. */
  lemma SearchIgnoresSurroundingSpace(p: Product, query: string)
    ensures MatchesSearch(p, Trim(query)) == MatchesSearch(p, query)
  {
    TrimIdempotent(query);
  }

  /** Letter case in the product's fields makes no difference. */
  lemma SearchIgnoresFieldCase(p: Product, query: string)
    ensures MatchesSearch(p.(name := Lower(p.name), description := Lower(p.description), category := Lower(p.category)), query)
         == MatchesSearch(p, query)
  {
    LowerIdempotent(p.name);
    LowerIdempotent(p.description);
    LowerIdempotent(p.category);
  }

  /**
   * Typing more never widens the result: a product that matches a query
   * also matches any non-blank query that occurs in it (case aside).
   */
  lemma {:induction false} NarrowerQueryKeepsMatch(p: Product, longer: string, shorter: string)
    requires Trim(longer) != "" && Trim(shorter) != ""
    requires Includes(Lower(Trim(longer)), Lower(Trim(shorter)))
    requires MatchesSearch(p, longer)
    ensures MatchesSearch(p, shorter)
  {
    var q1, q2 := Lower(Trim(longer)), Lower(Trim(shorter));
    if Includes(Lower(p.name), q1) {
      IncludesTransitive(Lower(p.name), q1, q2);
    } else if Includes(Lower(p.description), q1) {
      IncludesTransitive(Lower(p.description), q1, q2);
    } else {
      IncludesTransitive(Lower(p.category), q1, q2);
    }
  }

  /** The search test as the filter's callback. */
  function Matcher(query: string): Product -> bool
  {
    (p: Product) => MatchesSearch(p, query)
  }

  /**
   * `filteredProducts`: nothing before the list has loaded, the whole
   * list for a blank query, else the products that match, in list order.
   */
  function FilteredProducts(products: Option<seq<Product>>, query: string): (r: seq<Product>)
    ensures products.None? ==> r == []
    ensures products.Some? ==> IsSubsequence(r, products.value)
    ensures forall p :: p in r ==> MatchesSearch(p, query)
  {
    if products.None? then []
    else if Trim(query) == "" then
      SubsequenceOfItself(products.value);
      products.value
    else Select(products.value, Matcher(query))
  }

  /**
   * Once loaded, a product is shown exactly when it is in the list and
   * matches; the blank-query shortcut returns what filtering would.
   */
  lemma FilteredProductsSpec(products: seq<Product>, query: string)
    ensures forall p :: p in FilteredProducts(Some(products), query) <==> p in products && MatchesSearch(p, query)
    ensures Trim(query) == "" ==> FilteredProducts(Some(products), query) == products == Select(products, Matcher(query))
  {
    forall p | p in products && MatchesSearch(p, query)
      ensures p in FilteredProducts(Some(products), query)
    {
      if Trim(query) != "" {
        SelectKeeps(products, Matcher(query), p);
      }
    }
    if Trim(query) == "" {
      SelectAll(products, Matcher(query));
    }
  }

  // ---------------------------------------------------------------- grouping

  function InCategory(category: string): Product -> bool
  {
    (p: Product) => p.category == category
  }

  /** The products of one category, in list order. */
  function Bucket(products: seq<Product>, category: string): seq<Product>
  {
    Select(products, InCategory(category))
  }

  /** A filter that nothing passes returns nothing. */
  lemma {:induction false} SelectNothing(products: seq<Product>, category: string)
    requires forall j :: 0 <= j < |products| ==> products[j].category != category
    ensures Bucket(products, category) == []
  {
    if products != [] {
      SelectNothing(products[1..], category);
    }
  }

  /**
   * `groupedProducts`: the `reduce` that pushes each product onto the
   * bucket of its category, creating the bucket on first use. A category
   * is a key exactly when some product has it, and its bucket holds that
   * category's products in list order.
   */
  method GroupByCategory(products: seq<Product>) returns (groups: map<string, seq<Product>>)
    ensures forall c :: c in groups <==> exists j :: 0 <= j < |products| && products[j].category == c
    ensures forall c :: c in groups ==> groups[c] == Bucket(products, c)
  {
    groups := map[];
    var i := 0;
    while i < |products|
      invariant 0 <= i <= |products|
      invariant forall c :: c in groups <==> exists j :: 0 <= j < i && products[j].category == c
      invariant forall c :: c in groups ==> groups[c] == Bucket(products[..i], c)
    {
      var p := products[i];
      if p.category !in groups {
        SelectNothing(products[..i], p.category);
        groups := groups[p.category := []];
      }
      groups := groups[p.category := groups[p.category] + [p]];
      forall c
        ensures Bucket(products[..i + 1], c) == Bucket(products[..i], c) + (if p.category == c then [p] else [])
      {
        BucketStep(products, i, c);
      }
      i := i + 1;
    }
    assert products[..i] == products;
  }

  /** Taking one more product adds it to its own category's bucket and to no other. */
  lemma BucketStep(products: seq<Product>, i: nat, c: string)
    requires i < |products|
    ensures Bucket(products[..i + 1], c) == Bucket(products[..i], c) + (if products[i].category == c then [products[i]] else [])
  {
    assert products[..i + 1] == products[..i] + [products[i]];
    SelectAppend(products[..i], products[i], InCategory(c));
  }

  /**
   * Every product lands in exactly one bucket, the one of its category;
   * a bucket is non-empty exactly when its category occurs.
   */
  lemma EachProductInOneBucket(products: seq<Product>, p: Product, category: string)
    ensures p in Bucket(products, category) <==> p in products && p.category == category
    ensures Bucket(products, category) != [] <==> exists j :: 0 <= j < |products| && products[j].category == category
  {
    if p in products && p.category == category {
      SelectKeeps(products, InCategory(category), p);
    }
    if exists j :: 0 <= j < |products| && products[j].category == category {
      var j :| 0 <= j < |products| && products[j].category == category;
      SelectKeeps(products, InCategory(category), products[j]);
    } else {
      SelectNothing(products, category);
    }
  }

  // ---------------------------------------------------------------- stock changes

  /** `Math.max(0, stock + delta)`. */
  function NewStock(stock: int, delta: int): (r: int)
    ensures r >= 0 && r >= stock + delta
    ensures stock + delta >= 0 ==> r == stock + delta
    ensures stock + delta < 0 ==> r == 0
  {
    if stock + delta > 0 then stock + delta else 0
  }

  /** `handleStockChange`: the mutation's variables for this product. */
  function StockRequest(p: Product, delta: int): (c: ProductCard.StockChange)
    ensures c.productId == p.id && c.newStock >= 0
  {
    ProductCard.StockChange(p.id, NewStock(p.stock_quantity, delta))
  }

  /**
   * The page's +1 and -1 buttons send what the tile's do, except at zero
   * stock: the tile sends nothing, the page sends 0 again.
   */
  lemma PageAndCardAgree(p: Product)
    requires p.stock_quantity >= 0
    ensures StockRequest(p, 1) == ProductCard.Increase(p)
    ensures p.stock_quantity > 0 ==> StockRequest(p, -1) == ProductCard.Decrease(p).value
    ensures p.stock_quantity == 0 ==> StockRequest(p, -1) == ProductCard.StockChange(p.id, 0) && ProductCard.Decrease(p).None?
  {
  }

  /** The list with the stock of the products whose id is `id` set to `stock`. */
  function WithStock(products: seq<Product>, id: string, stock: int): (r: seq<Product>)
    ensures |r| == |products|
    ensures forall i :: 0 <= i < |r| ==>
      && r[i].stock_quantity == (if products[i].id == id then stock else products[i].stock_quantity)
      && r[i].(stock_quantity := 0) == products[i].(stock_quantity := 0)
  {
    if products == [] then []
    else
      var p := products[0];
      [if p.id == id then p.(stock_quantity := stock) else p] + WithStock(products[1..], id, stock)
  }

  /** Setting the same stock twice is setting it once. */
  lemma {:induction false} WithStockIdempotent(products: seq<Product>, id: string, stock: int)
    ensures WithStock(WithStock(products, id, stock), id, stock) == WithStock(products, id, stock)
  {
    if products != [] {
      WithStockIdempotent(products[1..], id, stock);
    }
  }

  /** The search ignores stock, so the optimistic write shows in the filtered view as in the list. */
  lemma {:induction false} FilterSeesStockUpdate(products: seq<Product>, query: string, id: string, stock: int)
    ensures Select(WithStock(products, id, stock), Matcher(query)) == WithStock(Select(products, Matcher(query)), id, stock)
  {
    if products != [] {
      var p := products[0];
      var w := WithStock(products, id, stock);
      assert w[1..] == WithStock(products[1..], id, stock);
      assert MatchesSearch(w[0], query) == MatchesSearch(p, query);
      FilterSeesStockUpdate(products[1..], query, id, stock);
    }
  }

  /** The cache after `onMutate`'s write: `old?.map(...)`, so an empty cache stays empty. */
  function Optimistic(data: Option<seq<Product>>, id: string, stock: int): (r: Option<seq<Product>>)
    ensures r.None? <==> data.None?
    ensures r.Some? ==> |r.value| == |data.value|
  {
    if data.None? then None else Some(WithStock(data.value, id, stock))
  }

  /** `setQueryData(key, context?.previous)`: an absent value leaves the entry as it is. */
  function Restore(current: Option<seq<Product>>, previous: Option<seq<Product>>): (r: Option<seq<Product>>)
    ensures previous.Some? ==> r == previous
    ensures previous.None? ==> r == current
  {
    if previous.None? then current else previous
  }

  /** Rolling back with the snapshot `onMutate` took gives back exactly the list from before the write. */
  lemma RollbackRestoresSnapshot(data: Option<seq<Product>>, id: string, stock: int)
    ensures Restore(Optimistic(data, id, stock), data) == data
  {
  }

  /** The `products` query entry, as the stock mutation's callbacks see it. */
  class ProductCache {
    var data: Option<seq<Product>>

    constructor (data: Option<seq<Product>>)
      ensures this.data == data
    {
      this.data := data;
    }

    /** `onMutate`: take the snapshot, then write the new stock optimistically. */
    method OnMutate(id: string, stock: int) returns (previous: Option<seq<Product>>)
      modifies this
      ensures previous == old(data)
      ensures data == Optimistic(old(data), id, stock)
    {
      previous := data;
      if data.Some? {
        data := Some(WithStock(data.value, id, stock));
      }
    }

    /** `onError`: put the snapshot back. */
    method OnError(previous: Option<seq<Product>>)
      modifies this
      ensures data == Restore(old(data), previous)
    {
      if previous.Some? {
        data := previous;
      }
    }
  }

  // ---------------------------------------------------------------- prices

  datatype SaveOutcome = InvalidPrice | UpdatePrice(change: ProductCard.PriceChange)

  /** `savePrice`: NaN or a price of at most zero is refused; anything else is sent for the product. */
  function SavePrice(productId: string, parsed: Option<real>): (r: SaveOutcome)
    ensures r.UpdatePrice? ==> r.change.productId == productId && r.change.newPrice > 0.0
  {
    if parsed.None? || parsed.value <= 0.0 then InvalidPrice
    else UpdatePrice(ProductCard.PriceChange(productId, parsed.value))
  }

  /** The page accepts exactly the prices the tile's dialog accepts, and sends the same value. */
  lemma SavePriceAgreesWithCard(productId: string, parsed: Option<real>)
    ensures SavePrice(productId, parsed).UpdatePrice? <==> ProductCard.AcceptedPrice(parsed).Some?
    ensures SavePrice(productId, parsed).UpdatePrice? ==>
      SavePrice(productId, parsed).change.newPrice == ProductCard.AcceptedPrice(parsed).value
  {
  }

  // ---------------------------------------------------------------- category icons

  /**
   * Windows-1252 reading of one byte: the C1 range maps to its
   * punctuation and letters, five bytes there are unassigned (and vanish),
   * every other byte is the code point of the same number.
   */
  function Cp1252(b: nat): Option<char>
    requires b < 256
  {
    if b < 0x80 || b >= 0xA0 then Some(b as char)
    else if b == 0x81 || b == 0x8D || b == 0x8F || b == 0x90 || b == 0x9D then None
    else
      var table := [0x20AC, 0, 0x201A, 0x0192, 0x201E, 0x2026, 0x2020, 0x2021,
                    0x02C6, 0x2030, 0x0160, 0x2039, 0x0152, 0, 0x017D, 0,
                    0, 0x2018, 0x2019, 0x201C, 0x201D, 0x2022, 0x2013, 0x2014,
                    0x02DC, 0x2122, 0x0161, 0x203A, 0x0153, 0, 0x017E, 0x0178];
      Some(table[b - 0x80] as char)
  }

  /** One byte read back: its character, or nothing for an unassigned byte. */
  function MisreadByte(b: nat): string
    requires b < 256
  {
    match Cp1252(b)
    case None => ""
    case Some(c) => [c]
  }

  /** Bytes read back as Windows-1252 text. */
  function Misread(bytes: seq<nat>): string
    requires forall i :: 0 <= i < |bytes| ==> bytes[i] < 256
  {
    if bytes == [] then "" else MisreadByte(bytes[0]) + Misread(bytes[1..])
  }

  lemma MisreadFour(bytes: seq<nat>)
    requires |bytes| == 4 && forall i :: 0 <= i < 4 ==> bytes[i] < 256
    ensures Misread(bytes) == MisreadByte(bytes[0]) + MisreadByte(bytes[1]) + MisreadByte(bytes[2]) + MisreadByte(bytes[3])
  {
    assert bytes[3..][1..] == [];
    assert Misread(bytes[3..]) == MisreadByte(bytes[3]);
    assert bytes[2..][1..] == bytes[3..];
    assert Misread(bytes[2..]) == MisreadByte(bytes[2]) + Misread(bytes[3..]);
    assert bytes[1..][1..] == bytes[2..];
    assert Misread(bytes[1..]) == MisreadByte(bytes[1]) + Misread(bytes[2..]);
  }

  /** The icon text the page's `getCategoryEmoji` holds for each rule, as written. */
  function AsWrittenGlyph(r: ProductCard.Rule): string
  {
    match r
    case Beer => "\U{F0}\U{178}\U{BA}"
    case Whisky => "\U{F0}\U{178}\U{A5}\U{192}"
    case Wine => "\U{F0}\U{178}\U{B7}"
    case Vodka => "\U{F0}\U{178}\U{B8}"
    case Gin => "\U{F0}\U{178}\U{B8}"
    case Rum => "\U{F0}\U{178}\U{A5}\U{192}"
    case Chaser => "\U{F0}\U{178}\U{A5}\U{A4}"
    case Default => "\U{F0}\U{178}\U{B9}"
  }

  /** The page's `getCategoryEmoji` as written: the tile's rules, with the texts above. */
  function CategoryEmojiAsWritten(category: string): (r: string)
    ensures |r| >= 3 && r != ProductCard.CategoryEmoji(category)
  {
    AsWrittenGlyphLength(ProductCard.CategoryRule(category));
    AsWrittenGlyph(ProductCard.CategoryRule(category))
  }

  /**
   * Each text as written is the icon's UTF-8 bytes read back as
   * Windows-1252: three or four Latin characters where one emoji was
   * meant, for every category.
   */
  lemma AsWrittenIsMisreadIcon(category: string)
    ensures CategoryEmojiAsWritten(category) == Misread(UrlForm.Utf8(ProductCard.CategoryEmoji(category)[0]))
    ensures CategoryEmojiAsWritten(category) != ProductCard.CategoryEmoji(category)
    ensures |CategoryEmojiAsWritten(category)| >= 3
  {
    var r := ProductCard.CategoryRule(category);
    assert CategoryEmojiAsWritten(category) == AsWrittenGlyph(r);
    assert ProductCard.CategoryEmoji(category) == ProductCard.Glyph(r);
    MisreadGlyph(r);
    AsWrittenGlyphLength(r);
  }

  /** Every text as written is at least three characters long, where each icon is one. */
  lemma AsWrittenGlyphLength(r: ProductCard.Rule)
    ensures |AsWrittenGlyph(r)| >= 3 && |ProductCard.Glyph(r)| == 1
  {
  }

  lemma MisreadGlyph(r: ProductCard.Rule)
    ensures AsWrittenGlyph(r) == Misread(UrlForm.Utf8(ProductCard.Glyph(r)[0]))
  {
    var c := ProductCard.Glyph(r)[0];
    Cp1252Samples();
    match r
    case Beer =>
      assert c == '\U{1F37A}';
      MisreadEmoji(c, 0x8D, 0xBA);
    case Whisky =>
      assert c == '\U{1F943}';
      MisreadEmoji(c, 0xA5, 0x83);
    case Wine =>
      assert c == '\U{1F377}';
      MisreadEmoji(c, 0x8D, 0xB7);
    case Vodka =>
      assert c == '\U{1F378}';
      MisreadEmoji(c, 0x8D, 0xB8);
    case Gin =>
      assert c == '\U{1F378}';
      MisreadEmoji(c, 0x8D, 0xB8);
    case Rum =>
      assert c == '\U{1F943}';
      MisreadEmoji(c, 0xA5, 0x83);
    case Chaser =>
      assert c == '\U{1F964}';
      MisreadEmoji(c, 0xA5, 0xA4);
    case Default =>
      assert c == '\U{1F379}';
      MisreadEmoji(c, 0x8D, 0xB9);
  }

  /** The bytes of the icons' last two places, read back. */
  lemma Cp1252Samples()
    ensures MisreadByte(0x8D) == "" && MisreadByte(0x83) == "\U{192}"
    ensures MisreadByte(0xA5) == "\U{A5}" && MisreadByte(0xA4) == "\U{A4}"
    ensures MisreadByte(0xBA) == "\U{BA}" && MisreadByte(0xB7) == "\U{B7}"
    ensures MisreadByte(0xB8) == "\U{B8}" && MisreadByte(0xB9) == "\U{B9}"
  {
  }

  /** An emoji of the U+1F3xx and U+1F9xx blocks: bytes F0 9F, then the two given. */
  lemma MisreadEmoji(c: char, b2: nat, b3: nat)
    requires c as int == 0x1F000 + (b2 - 0x80) * 64 + (b3 - 0x80)
    requires 0x80 <= b2 < 0xC0 && 0x80 <= b3 < 0xC0
    ensures UrlForm.Utf8(c) == [0xF0, 0x9F, b2, b3]
    ensures Misread(UrlForm.Utf8(c)) == "\U{F0}\U{178}" + MisreadByte(b2) + MisreadByte(b3)
  {
    var n := c as int;
    EmojiDigits(n, b2 - 0x80, b3 - 0x80);
    assert UrlForm.Utf8(c) == [0xF0 + n / 262144, 0x80 + (n / 4096) % 64, 0x80 + (n / 64) % 64, 0x80 + n % 64];
    MisreadFour(UrlForm.Utf8(c));
    assert MisreadByte(0xF0) == "\U{F0}";
    assert MisreadByte(0x9F) == "\U{178}";
  }

  /** The base-64 digits of a code point in U+1F000..U+1FFFF. */
  lemma EmojiDigits(n: int, x: int, y: int)
    requires 0 <= x < 64 && 0 <= y < 64 && n == 0x1F000 + x * 64 + y
    ensures n / 262144 == 0 && (n / 4096) % 64 == 0x1F && (n / 64) % 64 == x && n % 64 == y
  {
    assert n / 64 == 0x7C0 + x;
    assert n / 4096 == 0x1F;
  }

  /** The page's icons as intended: the tile's emoji, so both views show the same icon. */
  function CategoryEmoji(category: string): (r: string)
    ensures r == ProductCard.Glyph(ProductCard.CategoryRule(category))
    ensures |r| == 1
  {
    ProductCard.CategoryEmoji(category)
  }
}

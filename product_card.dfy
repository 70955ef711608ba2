/**
 * One product tile of the dashboard: its category icon, its stock
 * buttons, its low-stock badge and its price-edit dialog. The stock
 * buttons report a change to the page and keep no state; the dialog's
 * open flag and input text are the tile's own state.
 */
module ProductCard {
  import opened Js
  import opened Types

  // ---------------------------------------------------------------- category icon

  /** The icon rules, in the order they are tried; `Default` applies when none does. */
  datatype Rule = Beer | Whisky | Wine | Vodka | Gin | Rum | Chaser | Default

  /** A rule's place in the test order. */
  function Rank(r: Rule): nat
  {
    match r
    case Beer => 0
    case Whisky => 1
    case Wine => 2
    case Vodka => 3
    case Gin => 4
    case Rum => 5
    case Chaser => 6
    case Default => 7
  }

  /** Whether a lower-cased category contains one of the rule's keywords. */
  predicate Matches(lower: string, r: Rule)
  {
    match r
    case Beer => Includes(lower, "beer")
    case Whisky => Includes(lower, "whisky") || Includes(lower, "whiskey")
    case Wine => Includes(lower, "wine")
    case Vodka => Includes(lower, "vodka")
    case Gin => Includes(lower, "gin")
    case Rum => Includes(lower, "rum")
    case Chaser => Includes(lower, "chaser")
    case Default => false
  }

  /** `getCategoryEmoji`'s chain of tests on the lower-cased category. */
  function CategoryRule(category: string): (r: Rule)
    ensures r != Default ==> Matches(Lower(category), r)
  {
    var lower := Lower(category);
    if Includes(lower, "beer") then Beer
    else if Includes(lower, "whisky") || Includes(lower, "whiskey") then Whisky
    else if Includes(lower, "wine") then Wine
    else if Includes(lower, "vodka") then Vodka
    else if Includes(lower, "gin") then Gin
    else if Includes(lower, "rum") then Rum
    else if Includes(lower, "chaser") then Chaser
    else Default
  }

  /** The icon of each rule: beer mug, tumbler, wine glass, cocktail glass, cup with straw, tropical drink. */
  function Glyph(r: Rule): (g: string)
    ensures |g| == 1 && 0x1F300 <= g[0] as int <= 0x1F9FF
  {
    match r
    case Beer => "\U{1F37A}"
    case Whisky => "\U{1F943}"
    case Wine => "\U{1F377}"
    case Vodka => "\U{1F378}"
    case Gin => "\U{1F378}"
    case Rum => "\U{1F943}"
    case Chaser => "\U{1F964}"
    case Default => "\U{1F379}"
  }

  function CategoryEmoji(category: string): (r: string)
    ensures |r| == 1
  {
    Glyph(CategoryRule(category))
  }

  /**
   * The first matching keyword wins: the chosen rule matches, no rule
   * tried before it does, and the default is chosen exactly when no rule
   * matches.
   */
  lemma FirstMatchWins(category: string)
    ensures CategoryRule(category) != Default ==> Matches(Lower(category), CategoryRule(category))
    ensures forall q: Rule :: Rank(q) < Rank(CategoryRule(category)) ==> !Matches(Lower(category), q)
    ensures CategoryRule(category) == Default <==> forall q: Rule :: !Matches(Lower(category), q)
  {
    var lower := Lower(category);
    var r := CategoryRule(category);
    forall q: Rule | Rank(q) < Rank(r)
      ensures !Matches(lower, q)
    {
      match q
      case Beer =>
      case Whisky =>
      case Wine =>
      case Vodka =>
      case Gin =>
      case Rum =>
      case Chaser =>
      case Default =>
    }
    if r == Default {
      forall q: Rule ensures !Matches(lower, q) {
        assert Rank(q) < Rank(Default) || q == Default;
      }
    } else {
      assert Matches(lower, r);
      assert exists q: Rule :: Matches(Lower(category), q);
    }
  }

  /** The choice is blind to ASCII case: a category and its lower-cased form get the same icon. */
  lemma CaseInsensitive(category: string)
    ensures CategoryRule(Lower(category)) == CategoryRule(category)
    ensures CategoryEmoji(Lower(category)) == CategoryEmoji(category)
  {
    LowerIdempotent(category);
  }

  /** A category that names two drinks gets the icon of the one tried first: "Ginger Beer" shows the beer mug. */
  lemma EarlierKeywordWins(category: string)
    requires Includes(Lower(category), "beer")
    ensures CategoryEmoji(category) == "\U{1F37A}"
  {
  }

  /** Whisky and rum share the tumbler, vodka and gin the cocktail glass; other icons are distinct. */
  lemma SharedGlyphs(a: Rule, b: Rule)
    ensures Glyph(a) == Glyph(b) <==>
      a == b || {a, b} == {Whisky, Rum} || {a, b} == {Vodka, Gin}
  {
  }

  // ---------------------------------------------------------------- stock buttons

  /** A call of `onStockChange`: the product's id and the stock to store. */
  datatype StockChange = StockChange(productId: string, newStock: int)

  /** `handleStockIncrease`: one more than the shown stock, for this product. */
  function Increase(p: Product): (c: StockChange)
    ensures c.productId == p.id
    ensures c.newStock > p.stock_quantity
  {
    StockChange(p.id, p.stock_quantity + 1)
  }

  /** `handleStockDecrease`: one less, but only from a positive stock; at 0 nothing is reported. */
  function Decrease(p: Product): (c: Option<StockChange>)
    ensures c.Some? <==> p.stock_quantity > 0
    ensures c.Some? ==> c.value.productId == p.id && 0 <= c.value.newStock < p.stock_quantity
  {
    if p.stock_quantity > 0 then Some(StockChange(p.id, p.stock_quantity - 1)) else None
  }

  /** The decrease button is disabled at exactly 0 stock. */
  predicate DecreaseDisabled(p: Product)
    ensures DecreaseDisabled(p) ==> IsLowStock(p)
  {
    p.stock_quantity == 0
  }

  /** Decreasing after an increase returns to the stock shown before, from any non-negative stock. */
  lemma IncreaseThenDecrease(p: Product)
    requires p.stock_quantity >= 0
    ensures Decrease(p.(stock_quantity := Increase(p).newStock)) == Some(StockChange(p.id, p.stock_quantity))
  {
  }

  /** Increasing after a decrease returns to the stock shown before. */
  lemma DecreaseThenIncrease(p: Product)
    requires p.stock_quantity > 0
    ensures Increase(p.(stock_quantity := Decrease(p).value.newStock)) == StockChange(p.id, p.stock_quantity)
  {
  }

  /** A disabled decrease button would report nothing anyway. */
  lemma DisabledDecreaseIsSilent(p: Product)
    requires DecreaseDisabled(p)
    ensures Decrease(p).None?
  {
  }

  /** The red badge: fewer than five in stock. */
  predicate IsLowStock(p: Product)
    ensures !IsLowStock(p) ==> Decrease(p).Some?
  {
    p.stock_quantity < 5
  }

  /** The badge is monotone in the stock: a decrease never clears it and an increase never sets it. */
  lemma LowStockMonotone(p: Product)
    ensures IsLowStock(p) && Decrease(p).Some? ==> IsLowStock(p.(stock_quantity := Decrease(p).value.newStock))
    ensures !IsLowStock(p) ==> !IsLowStock(p.(stock_quantity := Increase(p).newStock))
    ensures IsLowStock(p) <==> p.stock_quantity <= 4
  {
  }

  // ---------------------------------------------------------------- price dialog

  /** The price `handlePriceSubmit` accepts: a parsed number above zero; NaN or anything else is refused. */
  function AcceptedPrice(parsed: Option<real>): (r: Option<real>)
    ensures r.Some? <==> parsed.Some? && parsed.value > 0.0
    ensures r.Some? ==> r.value == parsed.value
  {
    if parsed.Some? && parsed.value > 0.0 then parsed else None
  }

  /** A call of `onPriceChange`. */
  datatype PriceChange = PriceChange(productId: string, newPrice: real)

  /**
   * The tile's price dialog. `parse` stands for `parseFloat`, with `None`
   * for NaN; `priceText` is the current `product.price` as `toString`
   * writes it, which changes when the page passes an updated product.
   */
  class PriceDialog {
    const productId: string
    var priceText: string
    const parse: string -> Option<real>
    var isOpen: bool
    var priceInput: string
    ghost var reported: seq<PriceChange>

    /** Closed, with the current price in the input. */
    constructor (product: Product, priceText: string, parse: string -> Option<real>)
      ensures productId == product.id && this.priceText == priceText && this.parse == parse
      ensures !isOpen && priceInput == priceText && reported == []
    {
      productId := product.id;
      this.priceText := priceText;
      this.parse := parse;
      isOpen := false;
      priceInput := priceText;
      reported := [];
    }

    /**
     * A re-render with an updated product: the shown price follows the
     * prop, while the `useState` input and the open flag keep their values.
     */
    method Rerender(newPriceText: string)
      modifies this
      ensures priceText == newPriceText
      ensures isOpen == old(isOpen) && priceInput == old(priceInput) && reported == old(reported)
    {
      priceText := newPriceText;
    }

    /** `openPriceDialog`: the input is reset to the price of the latest render, discarding earlier edits. */
    method Open()
      modifies this
      ensures isOpen && priceInput == old(priceText) && priceText == old(priceText) && reported == old(reported)
    {
      priceInput := priceText;
      isOpen := true;
    }

    /** Typing in the price field. */
    method Edit(text: string)
      modifies this
      ensures priceInput == text && isOpen == old(isOpen) && priceText == old(priceText) && reported == old(reported)
    {
      priceInput := text;
    }

    /** Cancel, or the dialog closing itself: closed, nothing reported, the input kept. */
    method Cancel()
      modifies this
      ensures !isOpen && priceInput == old(priceInput) && priceText == old(priceText) && reported == old(reported)
    {
      isOpen := false;
    }

    /**
     * `handlePriceSubmit`: an accepted price is reported once and closes
     * the dialog; otherwise nothing is reported and the dialog stays as it was.
     */
    method Submit() returns (change: Option<PriceChange>)
      modifies this
      ensures priceInput == old(priceInput) && priceText == old(priceText)
      ensures change.Some? <==> AcceptedPrice(parse(old(priceInput))).Some?
      ensures change.Some? ==>
        && change.value == PriceChange(productId, AcceptedPrice(parse(old(priceInput))).value)
        && change.value.newPrice > 0.0
        && !isOpen && reported == old(reported) + [change.value]
      ensures change.None? ==> isOpen == old(isOpen) && reported == old(reported)
    {
      var accepted := AcceptedPrice(parse(priceInput));
      if accepted.Some? {
        change := Some(PriceChange(productId, accepted.value));
        reported := reported + [change.value];
        isOpen := false;
      } else {
        change := None;
      }
    }
  }
}

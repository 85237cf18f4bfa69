/**
 * The product page, src/pages/ProductDetailPage.tsx: the quantity stepper and
 * the add-to-cart handler, and the display rules for the compare-at price and
 * the rating stars.
 */
module ProductDetail {
  import opened Types
  import opened CartStore

  /** The minus button (line 213). */
  predicate MinusDisabled(quantity: int, p: Product) {
    quantity <= 1 || !p.inStock
  }

  /** The plus button (line 222) and the add-to-cart button (line 231). */
  predicate PlusDisabled(p: Product) {
    !p.inStock
  }

  predicate AddToCartDisabled(p: Product) {
    !p.inStock
  }

  /**
   * An out-of-stock product disables the whole stepper and the add button;
   * an enabled minus button never asks for a quantity below 1.
   */
  lemma ButtonRules(quantity: int, p: Product)
    ensures !p.inStock ==> MinusDisabled(quantity, p) && PlusDisabled(p) && AddToCartDisabled(p)
    ensures !MinusDisabled(quantity, p) ==> quantity - 1 >= 1
    ensures p.inStock ==> (MinusDisabled(quantity, p) <==> quantity <= 1)
  {
  }

  /** `product.compareAtPrice && product.compareAtPrice > product.price`: present, non-zero and above the price. */
  predicate ShowCompareAt(p: Product) {
    p.compareAtPrice.Some? && p.compareAtPrice.value != 0.0 && p.compareAtPrice.value > p.price
  }

  /**
   * The struck-through price is shown only above the price; for a price that
   * is not negative it is shown exactly when it is present and above the price.
   */
  lemma CompareAtRule(p: Product)
    ensures ShowCompareAt(p) ==> p.compareAtPrice.value > p.price
    ensures p.price >= 0.0 ==> (ShowCompareAt(p) <==> p.compareAtPrice.Some? && p.compareAtPrice.value > p.price)
  {
  }

  /** `product.rating &&`: a missing or zero rating shows no stars. */
  predicate ShowRating(p: Product) {
    p.rating.Some? && p.rating.value != 0.0
  }

  /** Star `index` is drawn filled when `index < Math.floor(rating)`. */
  predicate StarFilled(rating: real, index: int) {
    index < rating.Floor
  }

  /** The number of filled stars among the first `n`. */
  function FilledStars(rating: real, n: nat): nat {
    if n == 0 then 0 else FilledStars(rating, n - 1) + (if StarFilled(rating, n - 1) then 1 else 0)
  }

  /** Of the five stars, the first floor(rating) are filled, clamped to 0..5. */
  lemma {:induction false} FilledStarsCount(rating: real, n: nat)
    ensures FilledStars(rating, n) == if rating.Floor <= 0 then 0 else if rating.Floor >= n then n else rating.Floor
    ensures forall i :: 0 <= i < n ==> (StarFilled(rating, i) <==> i < rating.Floor)
  {
    if n > 0 {
      FilledStarsCount(rating, n - 1);
    }
  }

  /** The product page state: the loaded product, the chosen quantity and the image shown. */
  class ProductDetailView {
    var product: Option<Product>
    var quantity: int
    var selectedImage: int

    ghost predicate Valid()
      reads this
    {
      quantity >= 1
    }

    /** Quantity 1, the first image, no product yet. */
    constructor ()
      ensures product == None && quantity == 1 && selectedImage == 0
      ensures Valid()
    {
      product := None;
      quantity := 1;
      selectedImage := 0;
    }

    /** The fetch effect: a found product replaces the current one and shows its first image. */
    method ProductFetched(fetched: Option<Product>)
      modifies this
      ensures fetched.Some? ==> product == fetched && selectedImage == 0
      ensures fetched.None? ==> product == old(product) && selectedImage == old(selectedImage)
      ensures quantity == old(quantity)
    {
      if fetched.Some? {
        product := fetched;
        selectedImage := 0;
      }
    }

    /** `handleQuantityChange`: values below 1 are ignored, so the quantity stays at least 1. */
    method ChangeQuantity(value: int)
      modifies this`quantity
      ensures quantity == if value >= 1 then value else old(quantity)
      ensures old(Valid()) ==> Valid()
    {
      if value >= 1 {
        quantity := value;
      }
    }

    /** The minus button: `handleQuantityChange(quantity - 1)` unless it is disabled. */
    method Minus()
      modifies this`quantity
      ensures product.Some? && !MinusDisabled(old(quantity), product.value) ==> quantity == old(quantity) - 1
      ensures product.None? || MinusDisabled(old(quantity), product.value) ==> quantity == old(quantity)
      ensures old(Valid()) ==> Valid()
    {
      if product.Some? && !MinusDisabled(quantity, product.value) {
        ChangeQuantity(quantity - 1);
      }
    }

    /** The plus button: `handleQuantityChange(quantity + 1)` unless it is disabled. */
    method Plus()
      modifies this`quantity
      ensures product.Some? && !PlusDisabled(product.value) && old(quantity) >= 0 ==> quantity == old(quantity) + 1
      ensures product.None? || PlusDisabled(product.value) ==> quantity == old(quantity)
      ensures old(Valid()) ==> Valid()
    {
      if product.Some? && !PlusDisabled(product.value) {
        ChangeQuantity(quantity + 1);
      }
    }

    /** `handleAddToCart`: the loaded product with the chosen quantity, nothing without a product. */
    method AddToCart(cart: Cart, freshId: string)
      modifies cart
      ensures product.Some? ==> cart.lines == Added(old(cart.lines), product.value, quantity, freshId)
      ensures product.Some? ==> Count(cart.lines) == old(Count(cart.lines)) + quantity
      ensures product.None? ==> cart.lines == old(cart.lines)
    {
      if product.Some? {
        cart.AddToCart(product.value, freshId, quantity);
      }
    }
  }
}

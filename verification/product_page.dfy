/** The product detail page: the quantity selector, clamped against the
    stock, and the image carousel, which steps through the images with
    modular arithmetic. */
module ProductPage {
  import opened JsSemantics

  /** `parseInt(productData.stock) || 0`: the parsed stock, or 0 when the
      stock is absent or does not parse. `stock` is the text parseInt reads
      (it converts a number to its decimal text first). */
  function StockLimit(stock: Option<string>): int
  {
    if stock.None? then 0
    else match ParseInt(stock.value)
      case None => 0
      case Some(n) => n
  }

  /** A stock the API sends as the number n gives a limit of n. */
  lemma StockLimitOfNumber(n: int)
    ensures StockLimit(Some(IntString(n))) == n
  {
    ParseIntString(n, "");
    assert IntString(n) + "" == IntString(n);
  }

  /** `productData.images?.length || 1`: the number of images, or 1 when
      there are none. */
  function ImageModulus(images: Option<seq<string>>): (n: int)
    ensures n >= 1
    ensures images.Some? && |images.value| > 0 ==> n == |images.value|
  {
    if images.None? || |images.value| == 0 then 1 else |images.value|
  }

  /** The new index of `nextImage`: `(i + 1) % n`. */
  function NextIndex(i: int, n: int): (r: int)
    requires n >= 1
    ensures 0 <= i ==> 0 <= r < n
    ensures 0 <= i < n ==> r == (if i == n - 1 then 0 else i + 1)
  {
    Rem(i + 1, n)
  }

  /** The new index of `prevImage`: `(i - 1 + n) % n`. */
  function PrevIndex(i: int, n: int): (r: int)
    requires n >= 1
    ensures 0 <= i ==> 0 <= r < n
    ensures 0 <= i < n ==> r == (if i == 0 then n - 1 else i - 1)
  {
    Rem(i - 1 + n, n)
  }

  /** Stepping forward then back, or back then forward, returns to the
      same image. */
  lemma NextPrevRoundTrip(i: int, n: int)
    requires n >= 1 && 0 <= i < n
    ensures PrevIndex(NextIndex(i, n), n) == i
    ensures NextIndex(PrevIndex(i, n), n) == i
  {
  }

  /** The three branches of `handleQuantityChange` for a value that parsed. */
  function ClampQuantity(value: int, maxStock: int): (q: int)
    ensures maxStock >= 1 ==> 1 <= q <= maxStock
    ensures 1 <= value <= maxStock ==> q == value
    ensures value > maxStock ==> q == maxStock
    ensures value <= maxStock && value < 1 ==> q == 1
  {
    if value > maxStock then maxStock
    else if value < 1 then 1
    else value
  }

  /** `handleQuantityChange`: text that does not parse leaves the quantity
      as it is; otherwise the parsed value is clamped. */
  function QuantityAfterInput(quantity: int, input: string, maxStock: int): (q: int)
    ensures ParseInt(input).None? ==> q == quantity
    ensures ParseInt(input).Some? ==> q == ClampQuantity(ParseInt(input).value, maxStock)
    ensures ParseInt(input).Some? && maxStock >= 1 ==> 1 <= q <= maxStock
  {
    match ParseInt(input)
    case None => quantity
    case Some(value) => ClampQuantity(value, maxStock)
  }

  /** While the stock is 0 (an unloaded or sold-out product), any typed
      quantity of at least 1 sets the quantity to 0. */
  lemma TypedQuantityWithoutStock(quantity: int, n: nat)
    requires n >= 1
    ensures QuantityAfterInput(quantity, IntString(n), 0) == 0
  {
    ParseIntString(n, "");
    assert IntString(n) + "" == IntString(n);
  }

  /** The page's state. `stock` and `images` are the fetched product's;
      `quantity` and `selectedImage` are what the user has chosen. */
  class ProductView {
    var stock: Option<string>
    var images: Option<seq<string>>
    var quantity: int
    var selectedImage: int

    /** `maxStock` */
    function MaxStock(): int
      reads this
    {
      StockLimit(stock)
    }

    function ImageCount(): int
      reads this
    {
      ImageModulus(images)
    }

    /** Every assignment to the selected image index gives a natural
        number. It may exceed the image count only after a reload with
        fewer images; the next step of the carousel brings it back. */
    ghost predicate Valid()
      reads this
    {
      0 <= selectedImage
    }

    /** The initial state: empty product data, quantity 1, first image. */
    constructor ()
      ensures Valid()
      ensures stock.None? && images.None? && quantity == 1 && selectedImage == 0
    {
      stock, images := None, None;
      quantity, selectedImage := 1, 0;
    }

    /** `setProductData(data)` after the fetch; the quantity and the
        selected image are kept. */
    method Load(newStock: Option<string>, newImages: Option<seq<string>>)
      requires Valid()
      modifies this
      ensures Valid()
      ensures stock == newStock && images == newImages
      ensures quantity == old(quantity) && selectedImage == old(selectedImage)
    {
      stock, images := newStock, newImages;
    }

    method NextImage()
      requires Valid()
      modifies this
      ensures Valid() && selectedImage < ImageCount()
      ensures selectedImage == NextIndex(old(selectedImage), ImageCount())
      ensures stock == old(stock) && images == old(images) && quantity == old(quantity)
    {
      selectedImage := NextIndex(selectedImage, ImageCount());
    }

    method PrevImage()
      requires Valid()
      modifies this
      ensures Valid() && selectedImage < ImageCount()
      ensures selectedImage == PrevIndex(old(selectedImage), ImageCount())
      ensures stock == old(stock) && images == old(images) && quantity == old(quantity)
    {
      selectedImage := PrevIndex(selectedImage, ImageCount());
    }

    /** A click on thumbnail `index`; the thumbnails are the images. */
    method SelectImage(index: int)
      requires images.Some? && 0 <= index < |images.value|
      modifies this
      ensures Valid() && selectedImage < ImageCount()
      ensures selectedImage == index
      ensures stock == old(stock) && images == old(images) && quantity == old(quantity)
    {
      selectedImage := index;
    }

    /** `incrementQuantity`: one more, only below the stock. */
    method IncrementQuantity()
      modifies this
      ensures quantity == if old(quantity) < MaxStock() then old(quantity) + 1 else old(quantity)
      ensures old(quantity) <= MaxStock() ==> quantity <= MaxStock()
      ensures stock == old(stock) && images == old(images) && selectedImage == old(selectedImage)
    {
      if quantity < MaxStock() {
        quantity := quantity + 1;
      }
    }

    /** `decrementQuantity`: one fewer, only above 1. */
    method DecrementQuantity()
      modifies this
      ensures quantity == if old(quantity) > 1 then old(quantity) - 1 else old(quantity)
      ensures old(quantity) >= 1 ==> quantity >= 1
      ensures stock == old(stock) && images == old(images) && selectedImage == old(selectedImage)
    {
      if quantity > 1 {
        quantity := quantity - 1;
      }
    }

    /** `handleQuantityChange` with the input's text. */
    method ChangeQuantity(input: string)
      modifies this
      ensures quantity == QuantityAfterInput(old(quantity), input, MaxStock())
      ensures MaxStock() >= 1 && ParseInt(input).Some? ==> 1 <= quantity <= MaxStock()
      ensures stock == old(stock) && images == old(images) && selectedImage == old(selectedImage)
    {
      var value := ParseInt(input);
      if value.Some? {
        if value.value > MaxStock() {
          quantity := MaxStock();
        } else if value.value < 1 {
          quantity := 1;
        } else {
          quantity := value.value;
        }
      }
    }
  }
}

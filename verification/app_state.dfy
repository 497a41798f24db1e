/**
 * The state `App.tsx` keeps with `useState`, with one method per handler.
 * A pending `setTimeout` is a boolean field that the handler arms or clears;
 * its callback is the matching `Fire…` method. The `ended` listener on the
 * last easter-egg sound is likewise a field and `FinalCueEnded` is the event.
 */
module AppState {
  import opened Wrappers
  import opened ProductTypes
  import opened ProductsService
  import opened UseProducts
  import opened AppView

  /** The keys the window listeners react to; anything else is `OtherKey`. */
  datatype Key = Escape | ArrowLeft | ArrowRight | OtherKey

  /** `EASTER_EGG_SOUNDS.length - 1`: the step of the last note. */
  const LastEasterEggStep: int := 2

  class App {
    var isFiltersOpen: bool
    var searchTerm: string
    var brandFilter: string
    var categoryFilter: string
    var alphabeticalOrder: Order
    var priceOrder: Order

    var selectedProduct: Option<Product>
    var isProductModalClosing: bool
    var carouselIndex: int
    var isCartOpen: bool
    var isCheckoutMockOpen: bool
    var isCheckoutMockClosing: bool
    var isCardInfoModalOpen: bool
    var isCardInfoModalClosing: bool
    var isCreditsMockOpen: bool
    var easterEggStep: int
    var cartItems: seq<CartItem>
    var cartAnimationTick: int
    var hasCartNotification: bool

    /** Pending timeouts: product fade, checkout fade, card-info fade, easter-egg reset. */
    var modalCloseTimer: bool
    var checkoutCloseTimer: bool
    var cardInfoCloseTimer: bool
    var easterEggResetTimer: bool

    /** The three easter-egg sounds have been created. */
    var soundsReady: bool
    /** An `ended` listener waits on the last easter-egg sound. */
    var finalCueListener: bool

    /** The product modal: its fade timer runs exactly while it fades, and the carousel stays on an image. */
    predicate ProductModalValid()
      reads this`modalCloseTimer, this`isProductModalClosing, this`selectedProduct, this`carouselIndex
    {
      && (modalCloseTimer <==> isProductModalClosing)
      && (isProductModalClosing ==> selectedProduct.Some?)
      && (selectedProduct.Some? ==> 0 <= carouselIndex < |selectedProduct.value.images|)
    }

    /** The checkout and its card-details dialog: a fade timer runs while fading, never while steadily open. */
    predicate CheckoutValid()
      reads this`isCheckoutMockOpen, this`isCheckoutMockClosing, this`checkoutCloseTimer,
        this`isCardInfoModalOpen, this`isCardInfoModalClosing, this`cardInfoCloseTimer, this`isCreditsMockOpen
    {
      && (isCheckoutMockClosing ==> isCheckoutMockOpen && checkoutCloseTimer)
      && (isCheckoutMockOpen && !isCheckoutMockClosing ==> !checkoutCloseTimer)
      && (isCardInfoModalClosing ==> isCardInfoModalOpen && cardInfoCloseTimer)
      && (isCardInfoModalOpen && !isCardInfoModalClosing ==> !cardInfoCloseTimer)
      && !(isCheckoutMockOpen && isCreditsMockOpen)
    }

    /** The easter egg: a step in 0..2, with the reset timer pending exactly after a first note. */
    predicate EasterEggValid()
      reads this`easterEggStep, this`easterEggResetTimer
    {
      && 0 <= easterEggStep <= LastEasterEggStep
      && (easterEggResetTimer <==> easterEggStep > 0)
    }

    /** The cart: one line per product, and the checkout and the badge only with something in it. */
    predicate CartValid()
      reads this`isCheckoutMockOpen, this`cartItems, this`hasCartNotification, this`cartAnimationTick
    {
      && (isCheckoutMockOpen ==> cartItems != [])
      && (hasCartNotification ==> cartItems != [])
      && WellFormedCart(cartItems)
      && cartAnimationTick >= 0
    }

    predicate Valid()
      reads this
    {
      ProductModalValid() && CheckoutValid() && EasterEggValid() && CartValid()
    }

    /** The query `useProducts` receives on this render. */
    function Query(): QueryParams
      reads this
    {
      var (sortBy, sortDir) := SortParams(alphabeticalOrder, priceOrder);
      HookQuery(searchTerm, brandFilter, categoryFilter, sortBy, sortDir)
    }

    /** The first render: everything closed, empty filters and cart, no timer pending. */
    constructor()
      ensures Valid()
      ensures !isFiltersOpen && searchTerm == [] && brandFilter == [] && categoryFilter == []
      ensures alphabeticalOrder == Unordered && priceOrder == Unordered
      ensures selectedProduct.None? && !isProductModalClosing && carouselIndex == 0
      ensures !isCartOpen && !isCheckoutMockOpen && !isCheckoutMockClosing
      ensures !isCardInfoModalOpen && !isCardInfoModalClosing && !isCreditsMockOpen
      ensures easterEggStep == 0 && cartItems == [] && cartAnimationTick == 0 && !hasCartNotification
      ensures !modalCloseTimer && !checkoutCloseTimer && !cardInfoCloseTimer && !easterEggResetTimer
      ensures !soundsReady && !finalCueListener
    {
      isFiltersOpen := false;
      searchTerm := "";
      brandFilter := "";
      categoryFilter := "";
      alphabeticalOrder := Unordered;
      priceOrder := Unordered;
      selectedProduct := None;
      isProductModalClosing := false;
      carouselIndex := 0;
      isCartOpen := false;
      isCheckoutMockOpen := false;
      isCheckoutMockClosing := false;
      isCardInfoModalOpen := false;
      isCardInfoModalClosing := false;
      isCreditsMockOpen := false;
      easterEggStep := 0;
      cartItems := [];
      cartAnimationTick := 0;
      hasCartNotification := false;
      modalCloseTimer := false;
      checkoutCloseTimer := false;
      cardInfoCloseTimer := false;
      easterEggResetTimer := false;
      soundsReady := false;
      finalCueListener := false;
    }

    /** The mount effect that creates the three easter-egg sounds. */
    method LoadSounds()
      requires Valid()
      modifies this`soundsReady
      ensures Valid() && soundsReady
    {
      soundsReady := true;
    }

    method OpenFilters()
      requires Valid()
      modifies this`isFiltersOpen
      ensures Valid() && isFiltersOpen
    {
      isFiltersOpen := true;
    }

    method CloseFilters()
      requires Valid()
      modifies this`isFiltersOpen
      ensures Valid() && !isFiltersOpen
    {
      isFiltersOpen := false;
    }

    /** The overlay behind the side panels closes both of them. */
    method CloseSidePanels()
      requires Valid()
      modifies this`isFiltersOpen, this`isCartOpen
      ensures Valid() && !isFiltersOpen && !isCartOpen
    {
      isFiltersOpen := false;
      isCartOpen := false;
    }

    method SetSearchTerm(value: string)
      requires Valid()
      modifies this`searchTerm
      ensures Valid() && searchTerm == value
      ensures Query().search == Some(value)
    {
      searchTerm := value;
    }

    method SetBrandFilter(value: string)
      requires Valid()
      modifies this`brandFilter
      ensures Valid() && brandFilter == value
      ensures Query().brand == Some(value)
    {
      brandFilter := value;
    }

    method SetCategoryFilter(value: string)
      requires Valid()
      modifies this`categoryFilter
      ensures Valid() && categoryFilter == value
      ensures Query().category == Some(value)
    {
      categoryFilter := value;
    }

    /**
     * Choosing an alphabetical order leaves the price order as it was; a
     * chosen alphabetical order takes precedence in the query.
     */
    method SetAlphabeticalOrder(order: Order)
      requires Valid()
      modifies this`alphabeticalOrder
      ensures Valid() && alphabeticalOrder == order && priceOrder == old(priceOrder)
      ensures order != Unordered ==> Query().sortBy == Some("name") && Query().sortDir == Some(order.Direction())
    {
      alphabeticalOrder := order;
    }

    /** The price order decides the query only while no alphabetical order is chosen. */
    method SetPriceOrder(order: Order)
      requires Valid()
      modifies this`priceOrder
      ensures Valid() && priceOrder == order && alphabeticalOrder == old(alphabeticalOrder)
      ensures alphabeticalOrder == Unordered && order != Unordered ==>
        Query().sortBy == Some("price") && Query().sortDir == Some(order.Direction())
    {
      priceOrder := order;
    }

    /** `clearFilters`: empty texts, no order, so the list is requested by id, ascending. */
    method ClearFilters()
      requires Valid()
      modifies this`searchTerm, this`brandFilter, this`categoryFilter, this`alphabeticalOrder, this`priceOrder
      ensures Valid()
      ensures searchTerm == [] && brandFilter == [] && categoryFilter == []
      ensures alphabeticalOrder == Unordered && priceOrder == Unordered
    {
      searchTerm := "";
      brandFilter := "";
      categoryFilter := "";
      alphabeticalOrder := Unordered;
      priceOrder := Unordered;
    }

    /** `openProduct`: a pending fade-out is cancelled and the carousel starts at the first image. */
    method OpenProduct(product: Product)
      requires Valid()
      requires |product.images| > 0
      modifies this`modalCloseTimer, this`isProductModalClosing, this`selectedProduct, this`carouselIndex
      ensures Valid()
      ensures selectedProduct == Some(product) && !isProductModalClosing && carouselIndex == 0
      ensures !modalCloseTimer
    {
      modalCloseTimer := false;
      isProductModalClosing := false;
      selectedProduct := Some(product);
      carouselIndex := 0;
    }

    /** `closeProduct`: starts the fade-out once; ignored with no product or while fading. */
    method CloseProduct()
      requires Valid()
      modifies this`isProductModalClosing, this`modalCloseTimer
      ensures Valid()
      ensures old(selectedProduct.None? || isProductModalClosing) ==>
        isProductModalClosing == old(isProductModalClosing) && modalCloseTimer == old(modalCloseTimer)
      ensures old(selectedProduct.Some? && !isProductModalClosing) ==> isProductModalClosing && modalCloseTimer
    {
      if selectedProduct.None? || isProductModalClosing {
        return;
      }
      isProductModalClosing := true;
      modalCloseTimer := true;
    }

    /** The product fade-out ends: the modal is gone. */
    method FireModalCloseTimer()
      requires Valid()
      modifies this`selectedProduct, this`isProductModalClosing, this`modalCloseTimer
      ensures Valid() && !modalCloseTimer
      ensures old(modalCloseTimer) ==> selectedProduct.None? && !isProductModalClosing
      ensures !old(modalCloseTimer) ==>
        selectedProduct == old(selectedProduct) && isProductModalClosing == old(isProductModalClosing)
    {
      if modalCloseTimer {
        selectedProduct := None;
        isProductModalClosing := false;
        modalCloseTimer := false;
      }
    }

    /** `addToCart`: one more unit, the badge lights up, the bump animation restarts. */
    method AddToCart(product: Product)
      requires Valid()
      modifies this`cartItems, this`hasCartNotification, this`cartAnimationTick
      ensures Valid()
      ensures cartItems == AppView.AddToCart(old(cartItems), product)
      ensures TotalCartItems(cartItems) == TotalCartItems(old(cartItems)) + 1
      ensures TotalCartAmount(cartItems) == TotalCartAmount(old(cartItems)) + ChargedPrice(old(cartItems), product)
      ensures hasCartNotification && cartAnimationTick == old(cartAnimationTick) + 1
    {
      var updated := AppView.AddToCart(cartItems, product);
      AddToCartWellFormed(cartItems, product);
      AddToCartTotals(cartItems, product);
      cartItems := updated;
      hasCartNotification := true;
      cartAnimationTick := cartAnimationTick + 1;
    }

    /** `openCart`: opening the cart acknowledges the badge. */
    method OpenCart()
      requires Valid()
      modifies this`isCartOpen, this`hasCartNotification
      ensures Valid() && isCartOpen && !hasCartNotification
    {
      isCartOpen := true;
      hasCartNotification := false;
    }

    method CloseCart()
      requires Valid()
      modifies this`isCartOpen
      ensures Valid() && !isCartOpen
    {
      isCartOpen := false;
    }

    /**
     * `openCheckoutMock`: ignored with an empty cart; otherwise pending fades
     * are cancelled, the card details and credits are closed, the easter egg
     * starts over, and the cart panel gives way to the checkout.
     */
    method OpenCheckoutMock()
      requires Valid()
      modifies this`checkoutCloseTimer, this`cardInfoCloseTimer, this`isCardInfoModalClosing,
        this`isCardInfoModalOpen, this`easterEggResetTimer, this`easterEggStep,
        this`isCheckoutMockClosing, this`isCreditsMockOpen, this`isCartOpen, this`isCheckoutMockOpen
      ensures Valid()
      ensures old(cartItems) == [] ==> unchanged(this)
      ensures old(cartItems) != [] ==>
        isCheckoutMockOpen && !isCheckoutMockClosing && !checkoutCloseTimer
        && !isCardInfoModalOpen && !isCardInfoModalClosing && !cardInfoCloseTimer
        && easterEggStep == 0 && !easterEggResetTimer
        && !isCreditsMockOpen && !isCartOpen
    {
      if cartItems != [] {
        checkoutCloseTimer, cardInfoCloseTimer := false, false;
        isCardInfoModalClosing, isCardInfoModalOpen := false, false;
        easterEggResetTimer, easterEggStep := false, 0;
        isCheckoutMockClosing, isCreditsMockOpen := false, false;
        isCartOpen, isCheckoutMockOpen := false, true;
      }
    }

    /**
     * `closeCheckoutMock`: ignored unless open and not fading; otherwise the
     * card details close at once (their own timer is left alone), the easter
     * egg starts over and the checkout fades out.
     */
    method CloseCheckoutMock()
      requires Valid()
      modifies this`isCardInfoModalClosing, this`isCardInfoModalOpen, this`easterEggResetTimer,
        this`easterEggStep, this`isCheckoutMockClosing, this`checkoutCloseTimer
      ensures Valid()
      ensures cardInfoCloseTimer == old(cardInfoCloseTimer)
      ensures old(!isCheckoutMockOpen || isCheckoutMockClosing) ==>
        isCardInfoModalOpen == old(isCardInfoModalOpen) && isCardInfoModalClosing == old(isCardInfoModalClosing)
        && easterEggStep == old(easterEggStep) && easterEggResetTimer == old(easterEggResetTimer)
        && isCheckoutMockClosing == old(isCheckoutMockClosing) && checkoutCloseTimer == old(checkoutCloseTimer)
      ensures old(isCheckoutMockOpen && !isCheckoutMockClosing) ==>
        isCheckoutMockClosing && checkoutCloseTimer
        && !isCardInfoModalOpen && !isCardInfoModalClosing
        && easterEggStep == 0 && !easterEggResetTimer
    {
      if !isCheckoutMockOpen || isCheckoutMockClosing {
        return;
      }
      isCardInfoModalClosing := false;
      isCardInfoModalOpen := false;
      easterEggResetTimer := false;
      easterEggStep := 0;
      isCheckoutMockClosing := true;
      checkoutCloseTimer := true;
    }

    /** The checkout fade-out ends. */
    method FireCheckoutCloseTimer()
      requires Valid()
      modifies this`isCheckoutMockOpen, this`isCheckoutMockClosing, this`checkoutCloseTimer
      ensures Valid() && !checkoutCloseTimer
      ensures old(checkoutCloseTimer) ==> !isCheckoutMockOpen && !isCheckoutMockClosing
      ensures !old(checkoutCloseTimer) ==>
        isCheckoutMockOpen == old(isCheckoutMockOpen) && isCheckoutMockClosing == old(isCheckoutMockClosing)
    {
      if checkoutCloseTimer {
        isCheckoutMockOpen := false;
        isCheckoutMockClosing := false;
        checkoutCloseTimer := false;
      }
    }

    /** `openCardInfoModal`: cancels a pending fade-out and shows the card details. */
    method OpenCardInfoModal()
      requires Valid()
      modifies this`cardInfoCloseTimer, this`isCardInfoModalClosing, this`isCardInfoModalOpen
      ensures Valid() && isCardInfoModalOpen && !isCardInfoModalClosing && !cardInfoCloseTimer
    {
      cardInfoCloseTimer := false;
      isCardInfoModalClosing := false;
      isCardInfoModalOpen := true;
    }

    /** `closeCardInfoModal`: starts the fade-out once; ignored when closed or fading. */
    method CloseCardInfoModal()
      requires Valid()
      modifies this`isCardInfoModalClosing, this`cardInfoCloseTimer
      ensures Valid()
      ensures old(!isCardInfoModalOpen || isCardInfoModalClosing) ==>
        isCardInfoModalClosing == old(isCardInfoModalClosing) && cardInfoCloseTimer == old(cardInfoCloseTimer)
      ensures old(isCardInfoModalOpen && !isCardInfoModalClosing) ==> isCardInfoModalClosing && cardInfoCloseTimer
    {
      if !isCardInfoModalOpen || isCardInfoModalClosing {
        return;
      }
      isCardInfoModalClosing := true;
      cardInfoCloseTimer := true;
    }

    /** The card-details fade-out ends. */
    method FireCardInfoCloseTimer()
      requires Valid()
      modifies this`isCardInfoModalOpen, this`isCardInfoModalClosing, this`cardInfoCloseTimer
      ensures Valid() && !cardInfoCloseTimer
      ensures old(cardInfoCloseTimer) ==> !isCardInfoModalOpen && !isCardInfoModalClosing
      ensures !old(cardInfoCloseTimer) ==>
        isCardInfoModalOpen == old(isCardInfoModalOpen) && isCardInfoModalClosing == old(isCardInfoModalClosing)
    {
      if cardInfoCloseTimer {
        isCardInfoModalOpen := false;
        isCardInfoModalClosing := false;
        cardInfoCloseTimer := false;
      }
    }

    /**
     * `handleHappyPaymentClick`: ignored until the sounds exist; otherwise the
     * note of the current step plays, the reset timer restarts, and the step
     * advances, except after the last note, where the step returns to 0 and a
     * listener waits for that note to end.
     */
    method HandleHappyPaymentClick()
      requires Valid()
      modifies this`easterEggResetTimer, this`easterEggStep, this`finalCueListener
      ensures Valid()
      ensures !soundsReady ==>
        easterEggStep == old(easterEggStep) && easterEggResetTimer == old(easterEggResetTimer)
        && finalCueListener == old(finalCueListener)
      ensures soundsReady && old(easterEggStep) < LastEasterEggStep ==>
        easterEggStep == old(easterEggStep) + 1 && easterEggResetTimer && finalCueListener == old(finalCueListener)
      ensures soundsReady && old(easterEggStep) == LastEasterEggStep ==>
        easterEggStep == 0 && !easterEggResetTimer && finalCueListener
    {
      if !soundsReady {
        return;
      }
      var currentStep := easterEggStep;
      easterEggResetTimer := false;
      if currentStep >= LastEasterEggStep {
        easterEggStep := 0;
        finalCueListener := true;
        return;
      }
      easterEggStep := currentStep + 1;
      easterEggResetTimer := true;
    }

    /** Two seconds without a click: the easter egg starts over. */
    method FireEasterEggResetTimer()
      requires Valid()
      modifies this`easterEggStep, this`easterEggResetTimer
      ensures Valid() && !easterEggResetTimer && easterEggStep == 0
    {
      if easterEggResetTimer {
        easterEggStep := 0;
        easterEggResetTimer := false;
      }
    }

    /** The last note ends: the checkout gives way to the credits. */
    method FinalCueEnded()
      requires Valid()
      modifies this`isCheckoutMockOpen, this`isCheckoutMockClosing, this`isCreditsMockOpen, this`finalCueListener
      ensures Valid() && !finalCueListener
      ensures old(finalCueListener) ==> !isCheckoutMockOpen && !isCheckoutMockClosing && isCreditsMockOpen
      ensures !old(finalCueListener) ==>
        isCheckoutMockOpen == old(isCheckoutMockOpen) && isCheckoutMockClosing == old(isCheckoutMockClosing)
        && isCreditsMockOpen == old(isCreditsMockOpen)
    {
      if finalCueListener {
        isCheckoutMockOpen := false;
        isCheckoutMockClosing := false;
        isCreditsMockOpen := true;
        finalCueListener := false;
      }
    }

    method CloseCredits()
      requires Valid()
      modifies this`isCreditsMockOpen
      ensures Valid() && !isCreditsMockOpen
    {
      isCreditsMockOpen := false;
    }

    /** `goNextSlide`: the following image, wrapping to the first. */
    method GoNextSlide()
      requires Valid()
      modifies this`carouselIndex
      ensures Valid()
      ensures selectedProduct.None? ==> carouselIndex == old(carouselIndex)
      ensures selectedProduct.Some? ==>
        carouselIndex == NextSlide(old(carouselIndex), |selectedProduct.value.images|)
    {
      if selectedProduct.None? {
        return;
      }
      carouselIndex := NextSlide(carouselIndex, |selectedProduct.value.images|);
    }

    /** `goPrevSlide`: the preceding image, wrapping to the last. */
    method GoPrevSlide()
      requires Valid()
      modifies this`carouselIndex
      ensures Valid()
      ensures selectedProduct.None? ==> carouselIndex == old(carouselIndex)
      ensures selectedProduct.Some? ==>
        carouselIndex == PrevSlide(old(carouselIndex), |selectedProduct.value.images|)
    {
      if selectedProduct.None? {
        return;
      }
      carouselIndex := PrevSlide(carouselIndex, |selectedProduct.value.images|);
    }

    /**
     * A key press seen by the two window listeners: the product modal's, while
     * a product is selected, and the checkout's, while the checkout is open,
     * which closes the card details first and the checkout only without them.
     */
    method HandleKeyDown(key: Key)
      requires Valid()
      modifies this`isProductModalClosing, this`modalCloseTimer, this`carouselIndex,
        this`isCardInfoModalClosing, this`cardInfoCloseTimer, this`isCardInfoModalOpen,
        this`easterEggResetTimer, this`easterEggStep, this`isCheckoutMockClosing, this`checkoutCloseTimer
      ensures Valid()
      ensures key == OtherKey ==> unchanged(this)
      ensures (key != ArrowLeft && key != ArrowRight) || old(selectedProduct).None? ==>
        carouselIndex == old(carouselIndex)
      ensures key == ArrowRight && old(selectedProduct).Some? ==>
        carouselIndex == NextSlide(old(carouselIndex), |old(selectedProduct).value.images|)
      ensures key == ArrowLeft && old(selectedProduct).Some? ==>
        carouselIndex == PrevSlide(old(carouselIndex), |old(selectedProduct).value.images|)
      ensures key == Escape && old(selectedProduct).Some? ==> isProductModalClosing
      ensures key == Escape && old(isCheckoutMockOpen) && old(isCardInfoModalOpen) ==>
        isCardInfoModalClosing && isCheckoutMockClosing == old(isCheckoutMockClosing)
      ensures key == Escape && old(isCheckoutMockOpen) && old(isCardInfoModalOpen) ==>
        isCardInfoModalOpen == old(isCardInfoModalOpen) && checkoutCloseTimer == old(checkoutCloseTimer)
      ensures key == Escape && old(isCheckoutMockOpen) && !old(isCardInfoModalOpen) ==> isCheckoutMockClosing
      ensures key == Escape && (!old(isCheckoutMockOpen) || old(!isCardInfoModalOpen && isCheckoutMockClosing)) ==>
        isCheckoutMockClosing == old(isCheckoutMockClosing) && checkoutCloseTimer == old(checkoutCloseTimer)
        && isCardInfoModalOpen == old(isCardInfoModalOpen) && isCardInfoModalClosing == old(isCardInfoModalClosing)
        && cardInfoCloseTimer == old(cardInfoCloseTimer)
      ensures key == Escape && old(selectedProduct).None? ==>
        isProductModalClosing == old(isProductModalClosing) && modalCloseTimer == old(modalCloseTimer)
      ensures key != Escape ==>
        isCheckoutMockClosing == old(isCheckoutMockClosing) && checkoutCloseTimer == old(checkoutCloseTimer)
        && isCardInfoModalOpen == old(isCardInfoModalOpen) && isCardInfoModalClosing == old(isCardInfoModalClosing)
        && cardInfoCloseTimer == old(cardInfoCloseTimer)
        && isProductModalClosing == old(isProductModalClosing) && modalCloseTimer == old(modalCloseTimer)
      ensures key == Escape && old(isCheckoutMockOpen && !isCardInfoModalOpen && !isCheckoutMockClosing) ==>
        checkoutCloseTimer && easterEggStep == 0 && !easterEggResetTimer && !isCardInfoModalClosing
      ensures !(key == Escape && old(isCheckoutMockOpen && !isCardInfoModalOpen && !isCheckoutMockClosing)) ==>
        easterEggStep == old(easterEggStep) && easterEggResetTimer == old(easterEggResetTimer)
    {
      var productListening := selectedProduct.Some?;
      var checkoutListening := isCheckoutMockOpen;
      var cardInfoOpen := isCardInfoModalOpen;
      if productListening {
        if key == Escape {
          CloseProduct();
        }
        if key == ArrowLeft {
          GoPrevSlide();
        }
        if key == ArrowRight {
          GoNextSlide();
        }
      }
      if checkoutListening && key == Escape {
        if cardInfoOpen {
          CloseCardInfoModal();
        } else {
          CloseCheckoutMock();
        }
      }
    }
  }

  /** An `<img>` element: its source and its `data-fallback-applied` mark. */
  class ImageElement {
    var src: string
    var fallbackApplied: bool

    constructor(src: string)
      ensures this.src == src && !fallbackApplied
    {
      this.src := src;
      fallbackApplied := false;
    }
  }

  /**
   * `handleImageError`: an image that fails to load switches to its fallback
   * once; without a (non-empty) fallback, or once switched, nothing changes.
   */
  method HandleImageError(image: ImageElement, fallbackSrc: Option<string>)
    modifies image
    ensures (fallbackSrc.None? || fallbackSrc.value == [] || old(image.fallbackApplied)) ==>
      image.src == old(image.src) && image.fallbackApplied == old(image.fallbackApplied)
    ensures !(fallbackSrc.None? || fallbackSrc.value == [] || old(image.fallbackApplied)) ==>
      image.src == fallbackSrc.value && image.fallbackApplied
  {
    if fallbackSrc.None? || fallbackSrc.value == [] {
      return;
    }
    if image.fallbackApplied {
      return;
    }
    image.fallbackApplied := true;
    image.src := fallbackSrc.value;
  }

  /** A main image that keeps failing ends on its bundled fallback and stays there. */
  method MainImageFallsBackOnce(item: ApiProduct) returns (image: ImageElement)
    ensures image.fallbackApplied && image.src == BuildFallbackMain(item.id)
  {
    var product := MapApiProduct(item);
    var main := product.images[0];
    image := new ImageElement(main.src);
    HandleImageError(image, main.fallbackSrc);
    HandleImageError(image, main.fallbackSrc);
  }

  /**
   * Three clicks on the happy payment with the sounds ready leave the step at
   * 0, and when the last note ends the credits replace the checkout.
   */
  method EasterEggOpensCredits(app: App)
    requires app.Valid() && app.soundsReady && app.easterEggStep == 0
    modifies app
    ensures app.Valid() && app.isCreditsMockOpen && !app.isCheckoutMockOpen && app.easterEggStep == 0
  {
    app.HandleHappyPaymentClick();
    app.HandleHappyPaymentClick();
    app.HandleHappyPaymentClick();
    app.FinalCueEnded();
  }

  /** A pause of two seconds after two notes starts the melody over; no credits are armed. */
  method EasterEggPauseStartsOver(app: App)
    requires app.Valid() && app.soundsReady && app.easterEggStep == 0 && !app.finalCueListener
    modifies app
    ensures app.Valid() && app.easterEggStep == 0 && !app.finalCueListener
  {
    app.HandleHappyPaymentClick();
    app.HandleHappyPaymentClick();
    app.FireEasterEggResetTimer();
  }
}

/** The service card: the star row drawn for a rating and the two buttons
    that reach the stores. Ratings are in tenths (4.5 stars is 45). */
module ServiceCard {
  import opened Domain
  import Cart
  import Favorites

  datatype Star = Full | Half | Empty

  /** `Math.floor(rating)`, in whole stars. */
  function FloorStars(rating: int): (f: int)
    ensures 10 * f <= rating < 10 * f + 10
  {
    rating / 10
  }

  /** `Math.ceil(rating)`, in whole stars. */
  function CeilStars(rating: int): (c: int)
    ensures 10 * c - 10 < rating <= 10 * c
    ensures c == FloorStars(rating) || c == FloorStars(rating) + 1
  {
    -((-rating) / 10)
  }

  /** `rating % 1 !== 0`: the rating is not a whole number of stars. */
  predicate HasHalfStar(rating: int)
    ensures HasHalfStar(rating) <==> CeilStars(rating) == FloorStars(rating) + 1
  {
    rating % 10 != 0
  }

  /** The number of iterations of a loop `for (i = 0; i < n; i++)`. */
  function Iterations(n: int): nat {
    if n < 0 then 0 else n
  }

  /** `renderStars(rating)`: the full stars, an optional half star, then the empty stars. */
  method RenderStars(rating: int) returns (stars: seq<Star>)
    ensures |stars| == Iterations(FloorStars(rating)) + (if HasHalfStar(rating) then 1 else 0)
                       + Iterations(5 - CeilStars(rating))
    ensures forall i | 0 <= i < Iterations(FloorStars(rating)) :: stars[i] == Full
    ensures HasHalfStar(rating) ==> stars[Iterations(FloorStars(rating))] == Half
    ensures forall i | |stars| - Iterations(5 - CeilStars(rating)) <= i < |stars| :: stars[i] == Empty
  {
    stars := [];
    var fullStars := FloorStars(rating);
    var hasHalfStar := rating % 10 != 0;
    var i := 0;
    while i < fullStars
      invariant 0 <= i <= Iterations(fullStars)
      invariant |stars| == i
      invariant forall k | 0 <= k < i :: stars[k] == Full
    {
      stars := stars + [Full];
      i := i + 1;
    }
    if hasHalfStar {
      stars := stars + [Half];
    }
    ghost var before := |stars|;
    var emptyStars := 5 - CeilStars(rating);
    i := 0;
    while i < emptyStars
      invariant 0 <= i <= Iterations(emptyStars)
      invariant |stars| == before + i
      invariant forall k | 0 <= k < Iterations(fullStars) :: stars[k] == Full
      invariant hasHalfStar ==> stars[Iterations(fullStars)] == Half
      invariant forall k | before <= k < |stars| :: stars[k] == Empty
    {
      stars := stars + [Empty];
      i := i + 1;
    }
  }

  /** Exactly one half star is drawn when the rating is not whole, and then the
      full and empty stars are the whole stars below and above it. */
  lemma HalfStarSplitsTheRating(rating: int)
    ensures HasHalfStar(rating) <==> CeilStars(rating) == FloorStars(rating) + 1
    ensures !HasHalfStar(rating) <==> 10 * FloorStars(rating) == rating
  {
  }

  /** For a rating from 0 to 5 stars the row always has five stars. */
  lemma FiveStarsInRange(rating: int)
    requires 0 <= rating <= 50
    ensures Iterations(FloorStars(rating)) + (if HasHalfStar(rating) then 1 else 0)
            + Iterations(5 - CeilStars(rating)) == 5
  {
    HalfStarSplitsTheRating(rating);
  }

  /** Above five stars the row is all full stars, more than five of them. */
  lemma AboveFiveOverflows(rating: int)
    requires rating > 50
    ensures Iterations(5 - CeilStars(rating)) == 0
    ensures Iterations(FloorStars(rating)) >= 5
  {
  }

  class ServiceCard {
    const service: Service
    const favorites: Favorites.FavoritesStore
    const cart: Cart.CartStore

    constructor (service: Service, favorites: Favorites.FavoritesStore, cart: Cart.CartStore)
      ensures this.service == service && this.favorites == favorites && this.cart == cart
    {
      this.service := service;
      this.favorites := favorites;
      this.cart := cart;
    }

    /** The heart icon's state: `isFavorite(service.id)`. */
    function IsFavorite(): (b: bool)
      reads favorites
      ensures b <==> exists i :: 0 <= i < |favorites.favorites| && favorites.favorites[i].id == service.id
    {
      favorites.IsFavoriteId(service.id)
    }

    /** `handleFavorite`: one toggle of this card's service; the cart is untouched. */
    method HandleFavorite()
      modifies favorites, favorites.storage
      ensures favorites.favorites == Favorites.Toggle(old(favorites.favorites), service)
      ensures favorites.storage.entries == old(favorites.storage.entries)[FavoritesKey := Json(FavoritesDoc(favorites.favorites))]
      ensures favorites.pushed == old(favorites.pushed)
                                  + if favorites.session.isAuthenticated then [Favorites.Payload(favorites.favorites)] else []
      ensures cart.items == old(cart.items) && cart.pushed == old(cart.pushed)
    {
      favorites.ToggleFavorite(service);
    }

    /** `handleBookNow`: one add of this card's service to the cart; the favourites are untouched. */
    method HandleBookNow()
      modifies cart, cart.storage
      ensures cart.items == Cart.AddLine(old(cart.items), service)
      ensures cart.storage.entries == old(cart.storage.entries)[CartKey := Json(CartDoc(cart.items))]
      ensures cart.pushed == old(cart.pushed)
                             + if cart.session.isAuthenticated then [Cart.Payload(cart.items)] else []
      ensures favorites.favorites == old(favorites.favorites) && favorites.pushed == old(favorites.pushed)
    {
      cart.AddToCart(service);
    }
  }
}

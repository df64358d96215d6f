/** The root Vue instance: the `premium` flag and the cart, a list of
    variant ids. Adding pushes an id; deleting pops the most recent one,
    whichever variant it belongs to, and does nothing on an empty cart. */
module RootApp {

  /** The cart after `pop()`: the last id is gone; an empty cart stays
      empty. */
  function Popped(cart: seq<int>): (r: seq<int>)
    ensures cart == [] ==> r == []
    ensures cart != [] ==> r + [cart[|cart| - 1]] == cart
  {
    if cart == [] then [] else cart[..|cart| - 1]
  }

  /** Deleting right after adding restores the cart exactly, whatever id
      was added. */
  lemma DeleteUndoesAdd(cart: seq<int>, id: int)
    ensures Popped(cart + [id]) == cart
  {
    assert (cart + [id])[..|cart|] == cart;
  }

  /** Deleting only ever removes the last id: what remains is a prefix
      of the old cart, one shorter unless the cart was empty. */
  lemma DeleteKeepsPrefix(cart: seq<int>)
    ensures |Popped(cart)| == if cart == [] then 0 else |cart| - 1
    ensures Popped(cart) == cart[..|Popped(cart)|]
  {
  }

  class App {
    var premium: bool
    var cart: seq<int>

    constructor ()
      ensures premium && cart == []
    {
      premium := true;
      cart := [];
    }

    /** `updateCart(id)`: `cart.push(id)`. */
    method UpdateCart(id: int)
      modifies this
      ensures cart == old(cart) + [id]
      ensures premium == old(premium)
    {
      cart := cart + [id];
    }

    /** `deleteCart()`: `cart.pop()`, its result discarded. */
    method DeleteCart()
      modifies this
      ensures cart == Popped(old(cart))
      ensures premium == old(premium)
    {
      if cart != [] {
        cart := cart[..|cart| - 1];
      }
    }
  }
}

/**
 The pizza modal (components/pizza-modal.tsx): the size and quantity selector
 and the only producer of cart items. Prices are integer cents, so the size
 surcharges of +$0, +$2 and +$4 are 0, 200 and 400.
 */
module PizzaModal {
  import opened Wrappers
  import opened Cart
  import Auth

  /** The catalog fields the modal reads. */
  datatype Pizza = Pizza(id: int, name: string, price: int, image: string)

  /** The size table: what each size adds to the base price. */
  function Surcharge(size: Size): (cents: int)
  {
    match size
    case Small => 0
    case Medium => 200
    case Large => 400
  }

  /** Each size up costs two dollars more than the one below it, and the
      smallest adds nothing. */
  lemma SurchargeSteps()
    ensures Surcharge(Small) == 0
    ensures Surcharge(Medium) == Surcharge(Small) + 200
    ensures Surcharge(Large) == Surcharge(Medium) + 200
  {
  }

  /** The line item the modal hands to the cart; its unit price is the base
      price plus the size's surcharge. */
  function BuildItem(pizza: Pizza, size: Size, quantity: int): (item: Item)
    ensures item.id == pizza.id && item.name == pizza.name && item.image == pizza.image
    ensures item.price == pizza.price + Surcharge(size)
    ensures item.quantity == quantity && item.size == size
  {
    Item(pizza.id, pizza.name, pizza.price + Surcharge(size), pizza.image, quantity, size)
  }

  /** The modal's state: the pizza shown and the selected size and quantity. */
  class Modal {
    const pizza: Pizza
    var quantity: int
    var size: Size

    ghost predicate Valid()
      reads this
    {
      quantity >= 1
    }

    /** Opening the modal selects one medium pizza. */
    constructor (pizza: Pizza)
      ensures Valid()
      ensures this.pizza == pizza && quantity == 1 && size == Medium
    {
      this.pizza := pizza;
      quantity := 1;
      size := Medium;
    }

    /** The minus button: one fewer, but never below one. */
    method Decrement()
      requires Valid()
      modifies this
      ensures Valid() && size == old(size)
      ensures old(quantity) > 1 ==> quantity == old(quantity) - 1
      ensures old(quantity) == 1 ==> quantity == 1
    {
      quantity := if quantity - 1 > 1 then quantity - 1 else 1;
    }

    /** The plus button. */
    method Increment()
      requires Valid()
      modifies this
      ensures Valid() && size == old(size)
      ensures quantity == old(quantity) + 1
    {
      quantity := quantity + 1;
    }

    /** A size button. */
    method SelectSize(s: Size)
      requires Valid()
      modifies this
      ensures Valid() && quantity == old(quantity)
      ensures size == s
    {
      size := s;
    }

    /** The amount shown as both "Subtotal" and "Total": what a cart holding
        only the item being built would total. */
    function DisplayedTotal(): (cents: int)
      reads this
      ensures cents == Subtotal([BuildItem(pizza, size, quantity)])
    {
      assert [BuildItem(pizza, size, quantity)][..0] == [];
      (pizza.price + Surcharge(size)) * quantity
    }

    /** Add to Cart: the built item goes through the cart's add. */
    method AddToCart(store: CartStore)
      requires Valid() && store.Valid()
      modifies store
      ensures store.Valid() && store.isLoaded == old(store.isLoaded)
      ensures store.cart == AddItem(old(store.cart), BuildItem(pizza, size, quantity))
      ensures store.stored == Some(store.cart)
    {
      store.AddToCart(BuildItem(pizza, size, quantity));
    }

    /** Checkout from the modal: without a signed-in user nothing is added and
        the caller is sent to the login page. */
    method Checkout(store: CartStore, session: Auth.Session) returns (toLogin: bool)
      requires Valid() && store.Valid()
      modifies store
      ensures store.Valid()
      ensures toLogin <==> session.user.None?
      ensures toLogin ==> unchanged(store)
      ensures !toLogin ==> store.cart == AddItem(old(store.cart), BuildItem(pizza, size, quantity))
      ensures !toLogin ==> store.stored == Some(store.cart) && store.isLoaded == old(store.isLoaded)
    {
      if session.user.None? {
        return true;
      }
      AddToCart(store);
      toLogin := false;
    }
  }

  /** What the cart relies on from its producer: a built item from a valid
      selector has a positive quantity, so adding it keeps every quantity in
      the cart positive. */
  lemma BuiltItemKeepsQuantitiesPositive(cart: seq<Item>, pizza: Pizza, size: Size, quantity: int)
    requires QuantitiesPositive(cart) && quantity >= 1
    ensures QuantitiesPositive(AddItem(cart, BuildItem(pizza, size, quantity)))
  {
  }

  /** Adding a new pizza-and-size raises the cart total by exactly the amount
      the modal displays. */
  lemma CartTotalGrowsByDisplayedTotal(cart: seq<Item>, pizza: Pizza, size: Size, quantity: int)
    requires KeysUnique(cart) && !HasKey(cart, pizza.id, size)
    ensures Subtotal(AddItem(cart, BuildItem(pizza, size, quantity)))
         == Subtotal(cart) + (pizza.price + Surcharge(size)) * quantity
  {
    SubtotalAfterAdd(cart, BuildItem(pizza, size, quantity));
  }
}

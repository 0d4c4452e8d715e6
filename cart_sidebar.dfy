/**
 * The cart drawer's controls (src/components/CartSidebar.tsx): the quantity
 * buttons of each line, its remove button, and the checkout button.
 */
module CartSidebar {
  import opened Types
  import opened CartCommands

  /** `handleQuantityChange(productId, newQuantity)`: a quantity of zero or less removes the line. */
  function QuantityChange(productId: string, newQuantity: int): (c: CartCommand)
    ensures newQuantity <= 0 <==> c == RemoveItem(productId)
    ensures newQuantity > 0 <==> c == UpdateQuantity(productId, newQuantity)
    ensures c.UpdateQuantity? ==> c.quantity > 0
  {
    if newQuantity <= 0 then RemoveItem(productId) else UpdateQuantity(productId, newQuantity)
  }

  /** The `−` button of a line. */
  function Decrement(item: CartItem): (c: CartCommand)
    ensures (c.RemoveItem? || c.UpdateQuantity?) && c.productId == item.product.id
  {
    QuantityChange(item.product.id, item.quantity - 1)
  }

  /** The `+` button of a line. */
  function Increment(item: CartItem): (c: CartCommand)
    ensures (c.RemoveItem? || c.UpdateQuantity?) && c.productId == item.product.id
  {
    QuantityChange(item.product.id, item.quantity + 1)
  }

  /** The `Remove` button of a line. */
  function RemoveButton(item: CartItem): (c: CartCommand)
    ensures c == RemoveItem(item.product.id)
  {
    RemoveItem(item.product.id)
  }

  /** `handleCheckout()`. */
  function Checkout(): (c: CartCommand)
    ensures c == OpenCheckout
  {
    OpenCheckout
  }

  /** On a line holding one unit, `−` does what `Remove` does. */
  lemma DecrementLastUnitRemoves(item: CartItem)
    requires item.quantity == 1
    ensures Decrement(item) == RemoveButton(item)
  {
  }

  /** On a line with a positive quantity, `+` asks for exactly one more unit and `−` for one fewer or removal. */
  lemma StepsMoveByOne(item: CartItem)
    requires item.quantity > 0
    ensures Increment(item) == UpdateQuantity(item.product.id, item.quantity + 1)
    ensures item.quantity > 1 ==> Decrement(item) == UpdateQuantity(item.product.id, item.quantity - 1)
  {
  }
}

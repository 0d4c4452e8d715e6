/**
 * The cart store (src/contexts/CartContext.tsx) is not part of this model.
 * The components that drive it are modelled up to the calls they make into
 * it, each call being one command.
 */
module CartCommands {

  datatype CartCommand =
    | RemoveItem(productId: string)
    | UpdateQuantity(productId: string, quantity: int)
    | ClearCart
    | CloseCart
    | OpenCheckout
    | CloseCheckout
}

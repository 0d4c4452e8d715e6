/**
 * The demonstration checkout form (src/components/GuestCheckout.tsx): the
 * contact and shipping fields, and a submit that pretends to process the
 * order on two timers before clearing the cart and closing.
 */
module GuestCheckout {
  import opened Wrappers
  import opened Types
  import opened CartCommands
  import RegionContext
  import Pricing

  const DefaultCountry: string := "United States"

  /** The blank form the checkout opens with and returns to after an order. */
  const InitialInfo: CustomerInfo := CustomerInfo("", "", "", "", "", "", "", "", DefaultCountry)

  /** The `name` attribute of an input, which selects the field it edits. */
  datatype Field = FirstName | LastName | Email | Phone | Address | City | State | ZipCode | Country

  function Get(info: CustomerInfo, f: Field): string
  {
    match f
    case FirstName => info.firstName
    case LastName => info.lastName
    case Email => info.email
    case Phone => info.phone
    case Address => info.address
    case City => info.city
    case State => info.state
    case ZipCode => info.zipCode
    case Country => info.country
  }

  /** `{ ...prev, [name]: value }`: one field replaced, the others kept. */
  function WithField(info: CustomerInfo, f: Field, value: string): (r: CustomerInfo)
    ensures Get(r, f) == value
    ensures forall g :: g != f ==> Get(r, g) == Get(info, g)
  {
    match f
    case FirstName => info.(firstName := value)
    case LastName => info.(lastName := value)
    case Email => info.(email := value)
    case Phone => info.(phone := value)
    case Address => info.(address := value)
    case City => info.(city := value)
    case State => info.(state := value)
    case ZipCode => info.(zipCode := value)
    case Country => info.(country := value)
  }

  /** Two records with the same fields are the same record. */
  lemma FieldsDetermineInfo(a: CustomerInfo, b: CustomerInfo)
    requires forall g :: Get(a, g) == Get(b, g)
    ensures a == b
  {
    assert Get(a, FirstName) == Get(b, FirstName) && Get(a, LastName) == Get(b, LastName);
    assert Get(a, Email) == Get(b, Email) && Get(a, Phone) == Get(b, Phone);
    assert Get(a, Address) == Get(b, Address) && Get(a, City) == Get(b, City);
    assert Get(a, State) == Get(b, State) && Get(a, ZipCode) == Get(b, ZipCode);
    assert Get(a, Country) == Get(b, Country);
  }

  /** Writing a field back with the value it holds changes nothing; a second write to a field wins. */
  lemma WithFieldLaws(info: CustomerInfo, f: Field, v: string, w: string)
    ensures WithField(info, f, Get(info, f)) == info
    ensures WithField(WithField(info, f, v), f, w) == WithField(info, f, w)
  {
    FieldsDetermineInfo(WithField(info, f, Get(info, f)), info);
    FieldsDetermineInfo(WithField(WithField(info, f, v), f, w), WithField(info, f, w));
  }

  /** The pending timer: order processing (2 s after submit) or completion (3 s after that). */
  datatype Timer = Processing | Completion

  datatype CheckoutState = CheckoutState(info: CustomerInfo, isSubmitting: bool, orderComplete: bool, timer: Option<Timer>)

  const InitialState: CheckoutState := CheckoutState(InitialInfo, false, false, None)

  /** The flags always say which timer is pending. */
  predicate Consistent(s: CheckoutState)
  {
    match s.timer
    case None => !s.isSubmitting && !s.orderComplete
    case Some(Processing) => s.isSubmitting && !s.orderComplete
    case Some(Completion) => !s.isSubmitting && s.orderComplete
  }

  /** An edit of one field. */
  function InputChange(s: CheckoutState, f: Field, value: string): (next: CheckoutState)
    ensures next.info == WithField(s.info, f, value)
    ensures Consistent(s) ==> Consistent(next)
  {
    s.(info := WithField(s.info, f, value))
  }

  /** Every field marked `required` holds some text; the phone number is optional. */
  predicate RequiredFilled(info: CustomerInfo)
  {
    forall f :: f != Phone ==> Get(info, f) != ""
  }

  /** The blank form cannot be submitted. */
  lemma BlankFormNotSubmittable()
    ensures !RequiredFilled(InitialInfo)
  {
    assert Get(InitialInfo, FirstName) == "";
  }

  /**
   * Pressing the submit button: the browser runs `handleSubmit` only when
   * every required field is filled, and it marks the order as processing and
   * starts the first timer; otherwise nothing changes.
   */
  function Submit(s: CheckoutState): (next: CheckoutState)
    requires !s.isSubmitting && !s.orderComplete
    ensures RequiredFilled(s.info) ==> next.info == s.info && next.isSubmitting && !next.orderComplete
    ensures !RequiredFilled(s.info) ==> next == s
    ensures Consistent(s) ==> Consistent(next)
  {
    if RequiredFilled(s.info) then s.(isSubmitting := true, timer := Some(Processing)) else s
  }

  /**
   * The pending timer fires: processing ends with the order complete and the
   * second timer started; completion clears the cart, closes the checkout and
   * blanks the form.
   */
  function Fire(s: CheckoutState): (r: (CheckoutState, seq<CartCommand>))
    requires s.timer.Some?
    ensures Consistent(s) ==> Consistent(r.0)
    ensures s.timer == Some(Processing) ==>
              r == (s.(isSubmitting := false, orderComplete := true, timer := Some(Completion)), [])
    ensures s.timer == Some(Completion) ==>
              r.0.info == InitialInfo && !r.0.orderComplete && r.0.timer.None? && r.1 == [ClearCart, CloseCheckout]
  {
    match s.timer.value
    case Processing => (s.(isSubmitting := false, orderComplete := true, timer := Some(Completion)), [])
    case Completion => (s.(info := InitialInfo, orderComplete := false, timer := None), [ClearCart, CloseCheckout])
  }

  /**
   * One order from a consistent idle state: submit, then both timers. The
   * form ends blank and idle, and the cart is cleared before the checkout
   * is closed.
   */
  lemma OrderCycle(s: CheckoutState)
    requires Consistent(s) && s.timer.None? && RequiredFilled(s.info)
    ensures var a := Submit(s);
      var b := Fire(a);
      var c := Fire(b.0);
      && c.0 == InitialState
      && b.1 + c.1 == [ClearCart, CloseCheckout]
  {
  }

  /** The amount shown for a summary line: the base price times the quantity. */
  function LineAmount(item: CartItem): (amount: real)
    ensures item.quantity == 0 ==> amount == 0.0
    ensures item.quantity > 0 && item.product.price > 0.0 ==> amount >= item.product.price
  {
    item.product.price * item.quantity as real
  }

  /** The summary prices every line at the base price, whatever regional price the catalog shows. */
  lemma SummaryUsesBasePrice(item: CartItem)
    ensures LineAmount(item) == Pricing.ProductPrice(item.product, RegionContext.Global) * item.quantity as real
  {
  }

  /** The checkout form's state holder. */
  class GuestCheckoutForm {
    var state: CheckoutState

    constructor ()
      ensures state == InitialState
    {
      state := InitialState;
    }

    method HandleInputChange(f: Field, value: string)
      modifies this
      ensures state == InputChange(old(state), f, value)
    {
      state := state.(info := WithField(state.info, f, value));
    }

    /** The submit button is disabled while submitting, and the form is not shown once complete. */
    method HandleSubmit()
      requires !state.isSubmitting && !state.orderComplete
      modifies this
      ensures state == Submit(old(state))
    {
      if RequiredFilled(state.info) {
        state := state.(isSubmitting := true, timer := Some(Processing));
      }
    }

    /** The pending timer fires; `commands` are the calls it makes into the cart store, in order. */
    method FireTimer() returns (commands: seq<CartCommand>)
      requires state.timer.Some?
      modifies this
      ensures state == Fire(old(state)).0 && commands == Fire(old(state)).1
    {
      if state.timer.value == Processing {
        state := state.(isSubmitting := false, orderComplete := true, timer := Some(Completion));
        commands := [];
      } else {
        state := state.(info := InitialInfo, orderComplete := false, timer := None);
        commands := [ClearCart, CloseCheckout];
      }
    }
  }
}

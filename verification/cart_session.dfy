/** The cart page as a state machine. The page keeps two globals next to the
    stored cart: `applyMemberDiscount`, the member checkbox, and
    `activeDiscount`, the discount the page has settled on. Here the three
    together are one `State` value, and every user action is a function from
    a state to the next one.

    Every render reconciles the two globals: while no discount is settled and
    the item total is positive, a qualifying discount is settled, and when
    both the volume tier and the member flag qualify the shopper is asked
    which one to use. That blocking question is the `choice` parameter:
    true is OK (member discount), false is Cancel (volume discount). */
module CartSession {
  import opened Seqs
  import opened Pricing
  import opened CartItems

  datatype State = State(cart: Cart, applyMember: bool, active: Discount)

  /** The member checkbox agrees with the settled discount: on for the member
      discount, off for the volume discount. */
  predicate Consistent(s: State) {
    && (s.active == Volume ==> !s.applyMember)
    && (s.active == Member ==> s.applyMember)
  }

  /** The settling step of `render`. It acts only while nothing is settled
      and the item total is positive, and then settles the one discount that
      qualifies, or asks when both do; it never touches the cart or the flag. */
  function Reconcile(s: State, itemTotal: int, choice: bool): (r: State)
    ensures r.cart == s.cart && r.applyMember == s.applyMember
    ensures s.active != NoDiscount ==> r == s
    ensures itemTotal <= 0 ==> r == s
    ensures s.active == NoDiscount && itemTotal > 0 ==>
      && (itemTotal >= 5000 && s.applyMember ==> r.active == (if choice then Member else Volume))
      && (itemTotal >= 5000 && !s.applyMember ==> r.active == Volume)
      && (itemTotal < 5000 && s.applyMember ==> r.active == Member)
      && (itemTotal < 5000 && !s.applyMember ==> r.active == NoDiscount)
  {
    var volumeAmount := VolumeDiscount(itemTotal);
    // The JavaScript calls this `bothCanApply`, but it holds when either does.
    var eitherCanApply := volumeAmount > 0.0 || s.applyMember;
    if eitherCanApply && s.active == NoDiscount && itemTotal > 0 then
      if volumeAmount > 0.0 && s.applyMember then
        s.(active := if choice then Member else Volume)
      else if volumeAmount > 0.0 then s.(active := Volume)
      else if s.applyMember then s.(active := Member)
      else s
    else s
  }

  /** Reference table for the discount a render settles when none was
      settled: nothing for an empty total; from $50 with the member flag on,
      the shopper's answer; from $50 otherwise, volume; below $50, member when
      the flag is on and nothing otherwise. */
  function SettleFromNone(itemTotal: int, applyMember: bool, choice: bool): Discount {
    if itemTotal <= 0 then NoDiscount
    else if itemTotal >= 5000 && applyMember then (if choice then Member else Volume)
    else if itemTotal >= 5000 then Volume
    else if applyMember then Member
    else NoDiscount
  }

  /** The shopper's answer matters only in a genuine conflict: nothing settled
      yet, a positive total in a paying volume tier, and the member flag on. */
  lemma PromptOnlyOnConflict(s: State, itemTotal: int)
    ensures Reconcile(s, itemTotal, true) != Reconcile(s, itemTotal, false)
        <==> s.active == NoDiscount && itemTotal >= 5000 && s.applyMember
  {
  }

  /** The apply step of `render`: settling on the volume discount clears the
      member flag, settling on the member discount sets it. */
  function ApplySelection(s: State): (r: State)
    ensures r.cart == s.cart && r.active == s.active
    ensures Consistent(r)
    ensures Consistent(s) ==> r == s
  {
    match s.active
    case Volume => s.(applyMember := false)
    case Member => s.(applyMember := true)
    case NoDiscount => s
  }

  /** What one `render` leaves behind: the new state and, unless the filtered
      cart was empty, the invoice it displays. */
  datatype Rendered = Rendered(state: State, invoice: Option<Invoice>)

  /** `render`: filter the cart, stop at the empty-cart view when nothing is
      left, otherwise total the lines, settle the discount and price the
      invoice. */
  function Render(s: State, choice: bool): (r: Rendered)
    ensures r.state.cart == s.cart
    ensures r.invoice.None? <==> |ValidItems(s.cart)| == 0
    ensures r.invoice.None? ==> r.state == s
    ensures r.invoice.Some? ==> Consistent(r.state)
    ensures r.invoice.Some? ==> r.invoice.value == ComputeInvoice(ItemTotal(s.cart), r.state.active)
    ensures s.active != NoDiscount ==> r.state.active == s.active
    ensures s.active == NoDiscount ==>
      r.state.active == SettleFromNone(ItemTotal(s.cart), s.applyMember, choice)
    ensures r.state.active == NoDiscount ==> r.state.applyMember == s.applyMember
  {
    var valid := ValidItems(s.cart);
    if |valid| == 0 then Rendered(s, None)
    else
      var itemTotal := SumLineTotals(valid);
      var settled := ApplySelection(Reconcile(s, itemTotal, choice));
      Rendered(settled, Some(ComputeInvoice(itemTotal, settled.active)))
  }

  /** Every invoice a render shows is sound: at most one discount is taken,
      it is the settled one, it is covered by the item total, and no amount
      is negative. */
  lemma RenderedInvoiceSound(s: State, choice: bool)
    requires Render(s, choice).invoice.Some?
    ensures var r := Render(s, choice);
      var inv := r.invoice.value;
      && inv.itemTotal > 0
      && (inv.volumeDiscount == 0.0 || inv.memberDiscount == 0.0)
      && (inv.volumeDiscount > 0.0 ==> r.state.active == Volume && !r.state.applyMember)
      && (inv.memberDiscount > 0.0 ==> r.state.active == Member && r.state.applyMember)
      && 0.0 <= inv.volumeDiscount + inv.memberDiscount <= inv.itemTotal as real
      && inv.taxable >= ShippingCents as real
      && 0.0 <= inv.tax
      && inv.taxable <= inv.total
  {
  }

  /** Rendering again does not ask again: the second render keeps the state
      and shows the same invoice, whatever the second answer would be. */
  lemma RenderStable(s: State, first: bool, second: bool)
    ensures Render(Render(s, first).state, second) == Render(s, first)
  {
  }

  // ---------------------------------------------------------------- actions

  /** Page load: both globals reset, then a render. With the member flag off
      there is never anything to ask. */
  function PageLoad(cart: Cart, choice: bool): (r: State)
    ensures r.cart == cart && !r.applyMember && Consistent(r)
    ensures r.active == (if ItemTotal(cart) >= 5000 then Volume else NoDiscount)
  {
    Render(State(cart, false, NoDiscount), choice).state
  }

  lemma PageLoadNeverPrompts(cart: Cart)
    ensures PageLoad(cart, true) == PageLoad(cart, false)
  {
  }

  /** `toggleMemberDiscount`: set the flag, forget the settled discount, then
      render. Switching the flag off therefore never leaves the member
      discount settled. */
  function ToggleMemberDiscount(s: State, checked: bool, choice: bool): (r: State)
    ensures r.cart == s.cart && Consistent(r)
    ensures r.active == SettleFromNone(ItemTotal(s.cart), checked, choice)
    ensures !checked ==> !r.applyMember && r.active != Member
    ensures !checked ==> r.active == (if ItemTotal(s.cart) >= 5000 then Volume else NoDiscount)
    ensures ItemTotal(s.cart) == 0 ==> r == State(s.cart, checked, NoDiscount)
    ensures checked && ItemTotal(s.cart) >= 5000 ==> r.active == (if choice then Member else Volume)
    ensures checked && 0 < ItemTotal(s.cart) < 5000 ==> r.active == Member && r.applyMember
  {
    Render(State(s.cart, checked, NoDiscount), choice).state
  }

  /** `incrementQty`: an unknown id does nothing at all (no write, no
      render); otherwise the cart is written and rendered. */
  function IncrementQty(s: State, id: string, choice: bool): (r: State)
    ensures id !in Ids(s.cart) ==> r == s
    ensures id in Ids(s.cart) ==> r.cart == Increment(s.cart, id)
    ensures s.active != NoDiscount ==> r.active == s.active
    ensures id in Ids(s.cart) && s.active == NoDiscount ==>
      r.active == SettleFromNone(ItemTotal(r.cart), s.applyMember, choice)
    ensures r.active == NoDiscount ==> r.applyMember == s.applyMember
    ensures Consistent(s) ==> Consistent(r)
  {
    if id !in Ids(s.cart) then s
    else Render(s.(cart := Increment(s.cart, id)), choice).state
  }

  /** `decrementQty`: like `incrementQty`, removing the line once its
      quantity reaches zero. */
  function DecrementQty(s: State, id: string, choice: bool): (r: State)
    ensures id !in Ids(s.cart) ==> r == s
    ensures id in Ids(s.cart) ==> r.cart == Decrement(s.cart, id)
    ensures s.active != NoDiscount ==> r.active == s.active
    ensures id in Ids(s.cart) && s.active == NoDiscount ==>
      r.active == SettleFromNone(ItemTotal(r.cart), s.applyMember, choice)
    ensures r.active == NoDiscount ==> r.applyMember == s.applyMember
    ensures Consistent(s) ==> Consistent(r)
  {
    if id !in Ids(s.cart) then s
    else Render(s.(cart := Decrement(s.cart, id)), choice).state
  }

  /** `removeItem`: filter, write and render, even for an unknown id. */
  function RemoveItem(s: State, id: string, choice: bool): (r: State)
    ensures r.cart == Remove(s.cart, id)
    ensures s.active != NoDiscount ==> r.active == s.active
    ensures s.active == NoDiscount ==>
      r.active == SettleFromNone(ItemTotal(r.cart), s.applyMember, choice)
    ensures r.active == NoDiscount ==> r.applyMember == s.applyMember
    ensures Consistent(s) ==> Consistent(r)
  {
    Render(s.(cart := Remove(s.cart, id)), choice).state
  }

  /** `clearCart`: when confirmed, an empty cart with both globals reset;
      when declined, nothing happens. */
  function ClearCart(s: State, confirmed: bool): (r: State)
    ensures confirmed ==> r == State([], false, NoDiscount)
    ensures !confirmed ==> r == s
  {
    if confirmed then
      var emptied := State([], false, NoDiscount);
      Render(emptied, false).state
    else s
  }

  /** `addToCart` on the shop page changes the stored cart only; the cart
      page's globals are reset at its next load. */
  function ShopAdd(s: State, id: string, name: string, unitPrice: int, image: string): (r: State)
    ensures r.cart == AddToCart(s.cart, id, name, unitPrice, image)
    ensures r.applyMember == s.applyMember && r.active == s.active
    ensures id in Ids(r.cart)
  {
    s.(cart := AddToCart(s.cart, id, name, unitPrice, image))
  }

  /** One $30.00 line, nothing settled, member flag off: clicking + makes the
      total $60.00, and the render settles the volume discount without asking. */
  lemma ScenarioPlusSettlesVolume(choice: bool)
    ensures var line := LineItem("mug", "Mug", 3000, 1, "mug.png");
      var r := IncrementQty(State([line], false, NoDiscount), "mug", choice);
      && r.cart == [line.(qty := 2)]
      && r.active == Volume
      && !r.applyMember
  {
  }

  /** One user action of a browsing session, with the answers to any dialog
      it raises. */
  datatype Action =
    | Visit(choice: bool)
    | AddFromShop(id: string, name: string, unitPrice: int, image: string)
    | Toggle(checked: bool, choice: bool)
    | Plus(id: string, choice: bool)
    | Minus(id: string, choice: bool)
    | Drop(id: string, choice: bool)
    | Clear(confirmed: bool)

  function Step(s: State, a: Action): State {
    match a
    case Visit(choice) => PageLoad(s.cart, choice)
    case AddFromShop(id, name, price, image) => ShopAdd(s, id, name, price, image)
    case Toggle(checked, choice) => ToggleMemberDiscount(s, checked, choice)
    case Plus(id, choice) => IncrementQty(s, id, choice)
    case Minus(id, choice) => DecrementQty(s, id, choice)
    case Drop(id, choice) => RemoveItem(s, id, choice)
    case Clear(confirmed) => ClearCart(s, confirmed)
  }

  function Run(s: State, actions: seq<Action>): State
    decreases |actions|
  {
    if |actions| == 0 then s else Run(Step(s, actions[0]), actions[1..])
  }

  /** Every action keeps ids unique, quantities positive and the member flag
      in line with the settled discount. */
  lemma StepKeepsInvariants(s: State, a: Action)
    requires WellFormed(s.cart) && Consistent(s)
    ensures WellFormed(Step(s, a).cart) && Consistent(Step(s, a))
  {
    match a
    case Visit(_) =>
    case AddFromShop(id, name, price, image) => AddToCartWellFormed(s.cart, id, name, price, image);
    case Toggle(_, _) =>
    case Plus(id, _) => IncrementWellFormed(s.cart, id);
    case Minus(id, _) => DecrementWellFormed(s.cart, id);
    case Drop(id, _) => RemoveWellFormed(s.cart, id);
    case Clear(_) =>
  }

  /** Starting from a well-formed stored cart freshly loaded, every state a
      session reaches has a well-formed cart and a consistent member flag, so
      every invoice it shows takes at most one discount. */
  lemma {:induction false} RunKeepsInvariants(s: State, actions: seq<Action>)
    requires WellFormed(s.cart) && Consistent(s)
    ensures WellFormed(Run(s, actions).cart) && Consistent(Run(s, actions))
    decreases |actions|
  {
    if |actions| > 0 {
      StepKeepsInvariants(s, actions[0]);
      RunKeepsInvariants(Step(s, actions[0]), actions[1..]);
    }
  }

  /** The selection is sticky: once a discount is settled, only the member
      toggle, a confirmed clear or a page load can unsettle it, even when the
      item total leaves the tier that earned it. */
  lemma SettledDiscountSticks(s: State, a: Action)
    requires s.active != NoDiscount
    requires !a.Visit? && !a.Toggle? && !(a.Clear? && a.confirmed)
    ensures Step(s, a).active == s.active
  {
  }
}

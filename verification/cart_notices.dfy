/** The notifications the cart provider shows for each outcome: a success
    toast, an error toast or nothing. The message texts themselves are not
    modelled, only which message is shown. */
module CartNotices {
  import opened CartTypes
  import opened CartStore

  /** The fixed messages of the provider. */
  datatype Message =
    | ProductAdded | ProductRemoved
    | AddFailed | RemoveFailed | UpdateFailed
    | AmountOutOfStock

  datatype Notice = Silent | Success(message: Message) | Error(message: Message)

  /** The generic error message of each operation's catch block. */
  function FailureMessage(op: Op): (m: Message)
    ensures m !in {ProductAdded, ProductRemoved, AmountOutOfStock}
    // each operation has its own message, so distinct operations never share one
    ensures m == AddFailed <==> op == Add
    ensures m == RemoveFailed <==> op == Remove
    ensures m == UpdateFailed <==> op == Update
  {
    match op
    case Add => AddFailed
    case Remove => RemoveFailed
    case Update => UpdateFailed
  }

  /** The toast shown for an outcome. */
  function Notify(o: Outcome): (n: Notice)
    // successful adds and removes are announced, amount changes are silent
    ensures n.Success? <==> o in {Added, Removed}
    ensures n == Success(ProductAdded) <==> o == Added
    ensures n == Success(ProductRemoved) <==> o == Removed
    ensures n == Silent <==> o in {Updated, Ignored}
    // out of stock has its own message, never a generic failure
    ensures o == OutOfStock <==> n == Error(AmountOutOfStock)
    // a failed fetch or write and a missing id share the operation's message
    ensures n.Error? && n.message != AmountOutOfStock <==>
              o.FetchFailed? || o.WriteFailed? || o == NotFound
    ensures o.FetchFailed? || o.WriteFailed? ==> n == Error(FailureMessage(o.op))
    ensures o == NotFound ==> n == Error(FailureMessage(Remove))
  {
    match o
    case Added => Success(ProductAdded)
    case Removed => Success(ProductRemoved)
    case Updated => Silent
    case Ignored => Silent
    case OutOfStock => Error(AmountOutOfStock)
    case NotFound => Error(RemoveFailed)
    case FetchFailed(op) => Error(FailureMessage(op))
    case WriteFailed(op) => Error(FailureMessage(op))
  }

  /** Adding a product already in the cart goes through the amount update, so
      it never shows the "added" toast nor the add error: it is silent on
      success and reports failures with the update's messages. */
  lemma AddExistingNotifiesAsUpdate(s: Store, productId: int, product: Fetch<ProductData>, stock: Fetch<int>, writeOk: bool)
    requires HasId(s.cart, productId)
    ensures var n := Notify(AddProduct(s, productId, product, stock, writeOk).outcome);
            n in {Silent, Error(AmountOutOfStock), Error(UpdateFailed)}
  {
  }

  /** Adding a new product announces success exactly when the fetch and the
      write both succeed, and otherwise shows the add error. */
  lemma AddNewNotifies(s: Store, productId: int, product: Fetch<ProductData>, stock: Fetch<int>, writeOk: bool)
    requires !HasId(s.cart, productId)
    ensures var n := Notify(AddProduct(s, productId, product, stock, writeOk).outcome);
            && (n == Success(ProductAdded) <==> product.Fetched? && writeOk)
            && (n != Success(ProductAdded) ==> n == Error(AddFailed))
  {
  }
}

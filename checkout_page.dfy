/**
 * The checkout form: `validateForm`, which collects one message per bad
 * field, and `handleSubmit`, which guards the request and builds the order
 * payload from the trimmed fields and the cart items.
 */
module CheckoutPage {

  import opened Optional
  import opened Text
  import Store
  import CartContext
  import CheckoutController

  datatype Form = Form(name: string, email: string)

  /** The `errors` object: a message for each field that failed, absent otherwise. */
  datatype FormErrors = FormErrors(name: Option<string>, email: Option<string>)

  /** One entry of `orderData.cartItems`. */
  datatype OrderLine = OrderLine(productId: Store.ProductId, qty: int, price: int)

  datatype OrderData = OrderData(name: string, email: string, cartItems: seq<OrderLine>)

  /** What a submit does: nothing (form errors, or an empty cart), fail with a toast, or send the payload. */
  datatype Submission =
    | Invalid(errors: FormErrors)
    | EmptyCart
    | Failed(message: string)
    | Send(data: OrderData)

  const NameRequired := "Name is required"
  const EmailRequired := "Email is required"
  const EmailInvalid := "Please enter a valid email address"
  const CheckoutFailed := "Checkout failed. Please try again."

  /** The form the page lets through: a name and an email that are not blank, the email matching the pattern as typed. */
  ghost predicate FormAccepted(form: Form)
  {
    !AllSpace(form.name) && !AllSpace(form.email) && EmailPattern(form.email)
  }

  /** `validateForm()`: the errors it records and whether there were none. */
  method ValidateForm(form: Form) returns (errors: FormErrors, ok: bool)
    ensures errors.name.None? <==> !AllSpace(form.name)
    ensures errors.name.Some? ==> errors.name.value == NameRequired
    ensures errors.email == Some(EmailRequired) <==> AllSpace(form.email)
    ensures errors.email == Some(EmailInvalid) <==> !AllSpace(form.email) && !EmailPattern(form.email)
    ensures errors.email.None? || errors.email == Some(EmailRequired) || errors.email == Some(EmailInvalid)
    ensures ok <==> errors == FormErrors(None, None)
    ensures ok <==> FormAccepted(form)
  {
    TrimEmptyIff(form.name);
    TrimEmptyIff(form.email);
    EmailPatternIff(form.email);
    errors := FormErrors(None, None);
    if Trim(form.name) == [] {
      errors := errors.(name := Some(NameRequired));
    }
    if Trim(form.email) == [] {
      errors := errors.(email := Some(EmailRequired));
    } else if !IsEmail(form.email) {
      errors := errors.(email := Some(EmailInvalid));
    }
    ok := errors.name.None? && errors.email.None?;
  }

  /** The `items.map(...)` of the payload: product id, qty and the client's price for each item. */
  function OrderLines(items: seq<CartContext.Item>): (r: seq<OrderLine>)
    requires CartContext.AllLinked(items)
    ensures |r| == |items|
    ensures forall k :: 0 <= k < |items| ==>
      r[k] == OrderLine(items[k].product.value.id, items[k].qty, items[k].product.value.price)
  {
    if items == [] then [] else
      [OrderLine(items[0].product.value.id, items[0].qty, items[0].product.value.price)] + OrderLines(items[1..])
  }

  /**
   * `handleSubmit`: validate, refuse an empty cart, then build the payload;
   * an item without a product throws inside the `try` and ends in the
   * generic failure toast.
   */
  method HandleSubmit(form: Form, items: seq<CartContext.Item>) returns (sub: Submission)
    ensures sub.Invalid? <==> !FormAccepted(form)
    ensures sub.EmptyCart? <==> FormAccepted(form) && items == []
    ensures sub.Failed? <==> FormAccepted(form) && items != [] && !CartContext.AllLinked(items)
    ensures sub.Failed? ==> sub.message == CheckoutFailed
    ensures sub.Send? ==>
      && CartContext.AllLinked(items)
      && sub.data == OrderData(Trim(form.name), Trim(form.email), OrderLines(items))
  {
    var errors, ok := ValidateForm(form);
    if !ok {
      return Invalid(errors);
    }
    if |items| == 0 {
      return EmptyCart;
    }
    if !CartContext.AllLinked(items) {
      return Failed(CheckoutFailed);
    }
    var data := OrderData(Trim(form.name), Trim(form.email), OrderLines(items));
    sub := Send(data);
  }

  /** A form the page accepts is sent with its email unchanged by trimming. */
  lemma AcceptedEmailIsTrimmed(form: Form)
    requires FormAccepted(form)
    ensures Trim(form.email) == form.email
  {
    EmailPatternIff(form.email);
    TrimNoSpace(form.email);
  }

  /** The trimmed name and email of every form the page sends pass the server's checks. */
  lemma SentFormPassesServer(form: Form)
    requires FormAccepted(form)
    ensures CheckoutController.CustomerError(Some(Trim(form.name)), Some(Trim(form.email))) == None
  {
    AcceptedEmailIsTrimmed(form);
    TrimEmptyIff(form.name);
  }

  /** The server's checks are weaker: it accepts a blank name that the page refuses. */
  lemma ServerAcceptsMore()
    ensures !FormAccepted(Form("  ", "jo@x.com"))
    ensures CheckoutController.CustomerError(Some("  "), Some("jo@x.com")) == None
  {
    var blank := "  ";
    assert AllSpace(blank) by {
      assert |blank| == 2 && blank[0] == ' ' && blank[1] == ' ';
    }
    SampleEmailAccepted();
    EmailPatternIff("jo@x.com");
    CheckoutController.BlankNameAccepted(blank, "jo@x.com");
  }

}

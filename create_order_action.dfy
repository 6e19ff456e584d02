/**
  The route action behind the order form: it reads the submitted fields,
  parses the priority flag, validates the phone and either returns the
  field errors or submits the order and empties the cart.

  Reading the request, `JSON.parse` of the cart field, the order service and
  the redirect are outside the model: the form arrives as a map of field
  names to strings, and whether the cart field parses and the order
  service's answer arrive as parameters.
 */
module OrderAction {
  import CartSlice
  import PhoneRegex

  /** `Object.fromEntries(await request.formData())`. */
  type FormData = map<string, string>

  /** A field as the action reads it; a missing field is `undefined`, which
      the regular expression test reads as the text "undefined". */
  function PhoneField(data: FormData): string {
    if "phone" in data then data["phone"] else "undefined"
  }

  /** `data.priority === 'true'`. */
  function ParsePriority(data: FormData): bool {
    "priority" in data && data["priority"] == "true"
  }

  const PhoneMessage: string := "Por favor ingresa un número de teléfono válido"

  /** `{ ...data, cart, priority }`: every submitted field, with the priority
      flag replaced by its parsed value. The cart field stays serialised. */
  datatype Order = Order(fields: FormData, priority: bool)

  datatype Decision =
    | Errors(errors: map<string, string>)
    | Submit(order: Order)

  /** What the action decides before any effect, once the cart field has parsed. */
  function Decide(data: FormData): (d: Decision)
    ensures d.Errors? <==> !PhoneRegex.IsValidPhone(PhoneField(data))
    ensures d.Errors? ==> d.errors == map["phone" := PhoneMessage]
    ensures d.Submit? ==> d.order.fields == data && d.order.priority == ParsePriority(data)
  {
    var order := Order(data, ParsePriority(data));
    if PhoneRegex.IsValidPhone(PhoneField(data)) then Submit(order)
    else Errors(map["phone" := PhoneMessage])
  }

  /** What the action's promise settles to. */
  datatype ActionResult =
    | ReturnedErrors(errors: map<string, string>)
    | Redirected(path: string)
    | Failed

  /** The action itself. `cartParses` says whether `JSON.parse` of the cart
      field succeeds; it runs before the phone check, and when it throws the
      action's promise rejects whatever the phone is. `created` is the order
      service's answer to the submission: the new order's id, or `None` when
      the request fails, in which case the promise rejects before the cart is
      cleared. */
  method CreateOrderAction(data: FormData, cartParses: bool, store: CartSlice.CartStore, created: CartSlice.Option<string>)
    returns (r: ActionResult)
    modifies store
    ensures !cartParses ==> r == Failed && store.cart == old(store.cart)
    ensures cartParses && Decide(data).Errors? ==> r == ReturnedErrors(Decide(data).errors) && store.cart == old(store.cart)
    ensures cartParses && Decide(data).Submit? && created.None? ==> r == Failed && store.cart == old(store.cart)
    ensures cartParses && Decide(data).Submit? && created.Some? ==> r == Redirected("/order/" + created.value) && store.cart == []
  {
    if !cartParses {
      return Failed;
    }
    var errors: map<string, string> := map[];
    if !PhoneRegex.IsValidPhone(PhoneField(data)) {
      errors := errors["phone" := PhoneMessage];
    }
    if |errors| > 0 {
      return ReturnedErrors(errors);
    }
    match created {
      case None =>
        r := Failed;
      case Some(id) =>
        store.ClearCart();
        r := Redirected("/order/" + id);
    }
  }

  /** Only the exact text "true" turns priority on; an unchecked box sends no
      field, and a checked box without a value sends "on". */
  lemma PriorityExamples(data: FormData)
    ensures ParsePriority(data["priority" := "true"])
    ensures !ParsePriority(data["priority" := "on"])
    ensures !ParsePriority(data["priority" := "false"])
    ensures !ParsePriority(data - {"priority"})
  {
  }

  /** A form with a phone that has a letter, or no phone at all, yields the phone error. */
  lemma BadPhoneYieldsErrors(data: FormData, i: nat)
    requires "phone" !in data || (i < |data["phone"]| && 'a' <= data["phone"][i] <= 'z')
    ensures Decide(data) == Errors(map["phone" := PhoneMessage])
  {
    if "phone" in data {
      PhoneRegex.LetterRejected(data["phone"], i);
    } else {
      PhoneRegex.LetterRejected("undefined", 0);
    }
  }

  /** An empty phone yields the phone error. */
  lemma EmptyPhoneYieldsErrors(data: FormData)
    requires "phone" in data && data["phone"] == ""
    ensures Decide(data) == Errors(map["phone" := PhoneMessage])
  {
    PhoneRegex.EmptyPhoneRejected();
  }

  /** A form whose phone is an international number is submitted as it is. */
  lemma GoodPhoneSubmits(data: FormData)
    requires "phone" in data && data["phone"] == "+5491123456789"
    ensures Decide(data) == Submit(Order(data, ParsePriority(data)))
  {
    PhoneRegex.PhoneExamples();
  }

  /** Whatever the form, a submitted order's phone matched the pattern, so it
      ends in a digit and holds 5 to 24 digits. */
  lemma SubmittedPhoneIsWellFormed(data: FormData)
    requires Decide(data).Submit?
    ensures var phone := PhoneField(data);
      |phone| > 0 && PhoneRegex.IsDigit(phone[|phone| - 1]) && 5 <= PhoneRegex.DigitCount(phone) <= 24
  {
    PhoneRegex.PhoneEndsInDigit(PhoneField(data));
    PhoneRegex.PhoneDigitBounds(PhoneField(data));
  }
}

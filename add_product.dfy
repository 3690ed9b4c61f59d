/**
 * The add-product page: a form whose number fields are coerced as they are
 * typed, a client-side check that stops at the first broken rule, and a
 * submission that either navigates back to the list or shows the error.
 */
module AddProductPage {
  import opened Wrappers
  import opened Text
  import opened Numbers
  import opened Schemas
  import opened Api

  /** The form's input fields, by their `name` attribute. */
  datatype Field = Name | Type | Sku | ImageUrl | Description | Quantity | Price

  /** The outcome of the client-side check: the form is fine, or the first rule it breaks. */
  datatype Verdict =
    | Passed
    | NameRequired
    | TypeRequired
    | SkuRequired
    | PriceNotPositive
    | QuantityNegative

  /** How the API answers a creation request: created, or refused with an optional `detail` text. */
  datatype CreateOutcome = Created | Refused(detail: Option<string>)

  const PRODUCT_ADDED := "Product added successfully!"
  const ADD_FAILED := "Failed to add product"
  const PRODUCTS_ROUTE := "/products"

  /** The form as the page opens: empty texts and zero numbers. */
  function InitialForm(): (r: ProductForm)
    ensures r.name == [] && r.kind == [] && r.sku == [] && r.imageUrl == [] && r.description == []
    ensures r.quantity == 0.0 && r.price == 0.0
  {
    ProductForm("", "", "", "", "", 0.0, 0.0)
  }

  /**
   * `handleChange`: the named field takes the typed value; quantity and
   * price take `parseFloat(value) || 0`, the other fields the text as
   * typed. No other field changes.
   */
  function ChangeField(form: ProductForm, field: Field, value: string): (r: ProductForm)
    ensures r.name == if field == Name then value else form.name
    ensures r.kind == if field == Type then value else form.kind
    ensures r.sku == if field == Sku then value else form.sku
    ensures r.imageUrl == if field == ImageUrl then value else form.imageUrl
    ensures r.description == if field == Description then value else form.description
    ensures r.quantity == if field == Quantity then NumberOrZero(value) else form.quantity
    ensures r.price == if field == Price then NumberOrZero(value) else form.price
  {
    match field
    case Name => form.(name := value)
    case Type => form.(kind := value)
    case Sku => form.(sku := value)
    case ImageUrl => form.(imageUrl := value)
    case Description => form.(description := value)
    case Quantity => form.(quantity := NumberOrZero(value))
    case Price => form.(price := NumberOrZero(value))
  }

  /** Typing a decimal number into a number field stores that number. */
  lemma ChangeFieldReadsDecimal(form: ProductForm, field: Field, whole: nat, fraction: string)
    requires field == Quantity || field == Price
    requires |fraction| >= 1 && AllDigits(fraction, 10)
    ensures var r := ChangeField(form, field, NatToString(whole) + "." + fraction);
      (if field == Quantity then r.quantity else r.price) == whole as real + FractionValue(fraction)
  {
    ParseFloatReadsDecimal(whole, fraction);
  }

  /** Typing a whole number into a number field stores that number. */
  lemma ChangeFieldReadsInteger(form: ProductForm, field: Field, n: int)
    requires field == Quantity || field == Price
    ensures var r := ChangeField(form, field, IntToString(n));
      (if field == Quantity then r.quantity else r.price) == n as real
  {
    ParseFloatReadsInteger(n);
  }

  /** Typing something with no digit at all into a number field stores 0. */
  lemma ChangeFieldWithoutDigits(form: ProductForm, field: Field, value: string)
    requires field == Quantity || field == Price
    requires forall i :: 0 <= i < |value| ==> !IsDigitIn(value[i], 10)
    ensures var r := ChangeField(form, field, value);
      (if field == Quantity then r.quantity else r.price) == 0.0
  {
    NumberOrZeroWithoutDigits(value);
  }

  /**
   * `validateForm`: the rules in the order they are checked — name, type
   * and SKU must not be blank (`!s.trim()`), the price must be above 0
   * and the quantity must not be negative. The verdict is the first rule
   * broken, so each verdict holds exactly when its rule is broken and
   * every earlier rule holds.
   */
  function Validate(f: ProductForm): (r: Verdict)
    ensures r == Passed <==>
      !AllSpace(f.name) && !AllSpace(f.kind) && !AllSpace(f.sku) && f.price > 0.0 && f.quantity >= 0.0
    ensures r == NameRequired <==> AllSpace(f.name)
    ensures r == TypeRequired <==> !AllSpace(f.name) && AllSpace(f.kind)
    ensures r == SkuRequired <==> !AllSpace(f.name) && !AllSpace(f.kind) && AllSpace(f.sku)
    ensures r == PriceNotPositive <==>
      !AllSpace(f.name) && !AllSpace(f.kind) && !AllSpace(f.sku) && f.price <= 0.0
    ensures r == QuantityNegative <==>
      !AllSpace(f.name) && !AllSpace(f.kind) && !AllSpace(f.sku) && f.price > 0.0 && f.quantity < 0.0
  {
    if Trim(f.name) == [] then NameRequired
    else if Trim(f.kind) == [] then TypeRequired
    else if Trim(f.sku) == [] then SkuRequired
    else if f.price <= 0.0 then PriceNotPositive
    else if f.quantity < 0.0 then QuantityNegative
    else Passed
  }

  /** The error toast for a broken rule. */
  function RuleMessage(v: Verdict): (r: string)
    requires v != Passed
    ensures r != []
  {
    match v
    case NameRequired => "Product name is required"
    case TypeRequired => "Product type is required"
    case SkuRequired => "SKU is required"
    case PriceNotPositive => "Price must be greater than 0"
    case QuantityNegative => "Quantity cannot be negative"
  }

  /** Different broken rules show different messages. */
  lemma RuleMessageInjective(v: Verdict, w: Verdict)
    requires v != Passed && w != Passed && v != w
    ensures RuleMessage(v) != RuleMessage(w)
  {
    var m, n := RuleMessage(v), RuleMessage(w);
    if {v, w} == {NameRequired, TypeRequired} {
      // The only two messages of equal length differ in their ninth character.
      assert m[8] != n[8];
    } else {
      assert |m| != |n|;
    }
  }

  /** The page as it opens cannot be submitted: the empty name is the first rule broken. */
  lemma InitialFormNeedsName()
    ensures Validate(InitialForm()) == NameRequired
  {
    assert AllSpace(InitialForm().name);
  }

  /**
   * A form the page lets through has a name, type and SKU of at least one
   * character, a positive price and a non-negative quantity: the
   * non-emptiness and sign parts of the product schema. (The schema's upper
   * length bounds are not checked on the page.)
   */
  lemma {:induction false} PassedFormMeetsSchemaMinimums(f: ProductForm)
    requires Validate(f) == Passed
    ensures |f.name| >= 1 && |f.kind| >= 1 && |f.sku| >= 1
    ensures ValidPrice(f.price) && f.quantity >= 0.0
  {
    assert !AllSpace(f.name) && !AllSpace(f.kind) && !AllSpace(f.sku);
  }

  /** A name of 101 letters passes the page's check although the product schema refuses it. */
  lemma LongNamePassesPageCheck()
    ensures var f := ProductForm(seq(101, _ => 'a'), "t", "s", "", "", 0.0, 1.0);
      Validate(f) == Passed && !LengthWithin(f.name, 1, 100)
  {
    var f := ProductForm(seq(101, _ => 'a'), "t", "s", "", "", 0.0, 1.0);
    assert !IsSpace(f.name[0]) && !IsSpace(f.kind[0]) && !IsSpace(f.sku[0]);
  }

  /**
   * The error toast after a refused creation: `detail || 'Failed to add
   * product'`, so the API's detail text when there is a non-empty one and
   * the fixed message otherwise. It is never empty.
   */
  function ErrorMessage(detail: Option<string>): (r: string)
    ensures r != []
    ensures detail.Some? && detail.value != [] ==> r == detail.value
    ensures detail.None? || detail.value == [] ==> r == ADD_FAILED
  {
    if detail.Some? && detail.value != [] then detail.value else ADD_FAILED
  }

  /**
   * The page's state. `requests` logs the API calls, `toasts` the
   * notifications and `navigations` the routes navigated to, in order.
   */
  class AddProductForm {
    var formData: ProductForm
    var loading: bool
    var requests: seq<Request>
    var toasts: seq<Toast>
    var navigations: seq<string>

    constructor()
      ensures formData == InitialForm() && !loading
      ensures requests == [] && toasts == [] && navigations == []
    {
      formData := InitialForm();
      loading := false;
      requests, toasts, navigations := [], [], [];
    }

    /** An input's change event: update that one field. */
    method HandleChange(field: Field, value: string)
      modifies this
      ensures formData == ChangeField(old(formData), field, value)
      ensures loading == old(loading) && requests == old(requests)
      ensures toasts == old(toasts) && navigations == old(navigations)
    {
      formData := ChangeField(formData, field, value);
    }

    /**
     * `handleSubmit` (the submit button is disabled while loading). A form
     * that breaks a rule gets that rule's toast and nothing is sent.
     * Otherwise the form is sent as it stands; on success a toast is shown
     * and the page navigates to the product list, on a refusal the error
     * toast is shown and the page stays. The form itself never changes.
     */
    method HandleSubmit(outcome: CreateOutcome)
      requires !loading
      modifies this
      ensures formData == old(formData) && !loading
      ensures Validate(formData) != Passed ==>
        toasts == old(toasts) + [ToastError(RuleMessage(Validate(formData)))]
        && requests == old(requests) && navigations == old(navigations)
      ensures Validate(formData) == Passed ==>
        requests == old(requests) + [Create(formData)]
      ensures Validate(formData) == Passed && outcome.Created? ==>
        toasts == old(toasts) + [ToastSuccess(PRODUCT_ADDED)]
        && navigations == old(navigations) + [PRODUCTS_ROUTE]
      ensures Validate(formData) == Passed && outcome.Refused? ==>
        toasts == old(toasts) + [ToastError(ErrorMessage(outcome.detail))]
        && navigations == old(navigations)
    {
      var verdict := Validate(formData);
      if verdict != Passed {
        toasts := toasts + [ToastError(RuleMessage(verdict))];
      } else {
        loading := true;
        requests := requests + [Create(formData)];
        if outcome.Created? {
          toasts := toasts + [ToastSuccess(PRODUCT_ADDED)];
          navigations := navigations + [PRODUCTS_ROUTE];
        } else {
          toasts := toasts + [ToastError(ErrorMessage(outcome.detail))];
        }
        loading := false;
      }
    }
  }
}

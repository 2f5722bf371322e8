/**
 * The create-group-order page: `handleChange`, which coerces the two numeric inputs with
 * `Number()` and stores every other input as typed, and `handleSubmit`'s required-field
 * validation.
 */
module CreateOrder {
  import opened Js
  import Backend

  /** `formData`: the two numeric fields hold the value `Number()` gave them. */
  datatype OrderForm = OrderForm(
    title: string, totalItems: JsNumber, maxMembers: JsNumber,
    deadline: string, savings: string, supplierId: string)

  /** The `name` of each input of the form. */
  datatype Field = Title | TotalItems | MaxMembers | Deadline | Savings | SupplierId

  /** What a field holds: text, or a number for `totalItems` and `maxMembers`. */
  datatype FieldValue = Text(text: string) | Number(number: JsNumber)

  /** The form as the page opens. */
  const InitialForm: OrderForm := OrderForm("", Finite(0.0), Finite(10.0), "", "", "")

  predicate IsNumeric(field: Field)
  {
    field == TotalItems || field == MaxMembers
  }

  function ValueOf(form: OrderForm, field: Field): (r: FieldValue)
  {
    match field
    case Title => Text(form.title)
    case TotalItems => Number(form.totalItems)
    case MaxMembers => Number(form.maxMembers)
    case Deadline => Text(form.deadline)
    case Savings => Text(form.savings)
    case SupplierId => Text(form.supplierId)
  }

  /** The form after `handleChange` for input `field` with the typed `value`. */
  function WithChange(form: OrderForm, field: Field, value: string): (r: OrderForm)
  {
    match field
    case Title => form.(title := value)
    case TotalItems => form.(totalItems := ToNumber(value))
    case MaxMembers => form.(maxMembers := ToNumber(value))
    case Deadline => form.(deadline := value)
    case Savings => form.(savings := value)
    case SupplierId => form.(supplierId := value)
  }

  /** The changed field holds `Number(value)` when it is numeric and `value` itself otherwise. */
  lemma ChangeStoresCoerced(form: OrderForm, field: Field, value: string)
    ensures IsNumeric(field) ==> ValueOf(WithChange(form, field, value), field) == Number(ToNumber(value))
    ensures !IsNumeric(field) ==> ValueOf(WithChange(form, field, value), field) == Text(value)
  {
  }

  /** Every other field keeps its value. */
  lemma ChangeOnlyNamedField(form: OrderForm, field: Field, value: string, other: Field)
    requires other != field
    ensures ValueOf(WithChange(form, field, value), other) == ValueOf(form, other)
  {
  }

  /** `handleSubmit` lets the form through ("Please fill in all required fields." otherwise). */
  predicate SubmitAccepted(form: OrderForm)
  {
    && form.title != "" && form.deadline != "" && form.savings != "" && form.supplierId != ""
    && !AtMostZero(form.totalItems) && !AtMostZero(form.maxMembers)
  }

  /** The form as it opens is refused: the strings are empty and `totalItems` is 0. */
  lemma InitialFormRefused()
    ensures !SubmitAccepted(InitialForm)
    ensures !AtMostZero(InitialForm.maxMembers)
  {
  }

  /**
   * An accepted form's maximum is positive, infinite or NaN (`NaN <= 0` is false); when it is
   * a whole number it is at least 1.
   */
  lemma AcceptedMaximum(form: OrderForm)
    requires SubmitAccepted(form)
    ensures form.maxMembers.NaN? || form.maxMembers == Infinite(false)
         || (form.maxMembers.Finite? && form.maxMembers.value > 0.0)
    ensures form.maxMembers.Finite? && form.maxMembers.value == form.maxMembers.value.Floor as real ==>
      form.maxMembers.value >= 1.0
  {
  }

  /** Text without any digit typed into "Max Members" gives NaN, and a form holding it still passes. */
  lemma WordMaximumPasses(form: OrderForm, value: string)
    requires SubmitAccepted(form)
    requires forall i :: 0 <= i < |value| ==> !IsDigit(value[i])
    requires !AllSpace(value) && !IsInfinityLiteral(Trim(value))
    ensures WithChange(form, MaxMembers, value).maxMembers == NaN
    ensures SubmitAccepted(WithChange(form, MaxMembers, value))
  {
    NumberWithoutDigits(value);
  }

  /**
   * A whole-number submission the page accepts becomes, on the server, an order that starts
   * within capacity and open to joins.
   */
  lemma AcceptedOrderStartsOpen(form: OrderForm, body: Backend.GroupOrderBody)
    requires SubmitAccepted(form) && Backend.CreatableBody(body)
    requires form.maxMembers == Finite(body.maxMembers as real)
    requires form.totalItems == Finite(body.totalItems as real)
    ensures Backend.AdmissibleCapacity(body)
    ensures Backend.WithinCapacity(Backend.NewGroupOrder(body)) && !Backend.IsFull(Backend.NewGroupOrder(body))
  {
    Backend.AdmissibleOrderStartsOpen(body);
  }

  datatype SubmitOutcome =
    | RequiredFieldsAlert
    | Sent(body: OrderForm, succeeded: bool)

  /** The page's form state. */
  class CreateOrderPage {
    var formData: OrderForm

    constructor ()
      ensures formData == InitialForm
    {
      formData := InitialForm;
    }

    /** `handleChange` for input `field` with the typed `value`. */
    method HandleChange(field: Field, value: string)
      modifies this`formData
      ensures formData == WithChange(old(formData), field, value)
    {
      match field
      case Title => formData := formData.(title := value);
      case TotalItems => formData := formData.(totalItems := ToNumber(value));
      case MaxMembers => formData := formData.(maxMembers := ToNumber(value));
      case Deadline => formData := formData.(deadline := value);
      case Savings => formData := formData.(savings := value);
      case SupplierId => formData := formData.(supplierId := value);
    }

    /**
     * `handleSubmit`; `posted` says whether the server accepted the request (the page then
     * navigates to the dashboard, and otherwise alerts). The form is sent as it stands.
     */
    method HandleSubmit(posted: bool) returns (outcome: SubmitOutcome)
      ensures outcome == RequiredFieldsAlert <==> !SubmitAccepted(formData)
      ensures outcome.Sent? ==> outcome.body == formData && outcome.succeeded == posted
    {
      if formData.title == "" || formData.deadline == "" || formData.savings == "" || formData.supplierId == ""
         || AtMostZero(formData.totalItems) || AtMostZero(formData.maxMembers) {
        return RequiredFieldsAlert;
      }
      return Sent(formData, posted);
    }
  }
}

/** The customer draft (src/components/models/Orders.ts): four optional
    fields filled in over the two checkout steps, checked on demand. */
module OrdersModel {
  import opened Types
  import opened Text

  /** `ICustomerData`: a field is `None` until it has been set. */
  datatype Customer = Customer(
    payment: Option<PaymentMethod>,
    address: Option<string>,
    email: Option<string>,
    phone: Option<string>)

  /** `IOrderValidationErrors` as `validate()` builds it: every key present,
      `""` meaning the field is fine. */
  datatype ValidationErrors = ValidationErrors(
    payment: string,
    address: string,
    email: string,
    phone: string)

  const NoCustomer := Customer(None, None, None, None)

  const PaymentMissing := "Не выбран способ оплаты"
  const AddressMissing := "Не указан адрес"
  const FieldMustBeFilled := "Поле должно быть заполненным"

  /** `!s || s.trim().length === 0` for an optional string. */
  predicate UnsetOrBlank(s: Option<string>) {
    s.None? || |Trim(s.value)| == 0
  }

  /** `s !== undefined && s.trim().length === 0` */
  predicate SetButBlank(s: Option<string>) {
    s.Some? && |Trim(s.value)| == 0
  }

  class Orders {
    /** `private customer: ICustomerData` */
    var customer: Customer

    /** A new draft has no fields; checking it reports the missing payment
        and address and nothing for the contact fields. */
    constructor ()
      ensures customer == NoCustomer
      ensures Validate() == ValidationErrors(PaymentMissing, AddressMissing, "", "")
    {
      customer := NoCustomer;
    }

    method SetPayment(payment: PaymentMethod)
      modifies this
      ensures customer == old(customer).(payment := Some(payment))
    {
      customer := customer.(payment := Some(payment));
    }

    method SetAddress(address: string)
      modifies this
      ensures customer == old(customer).(address := Some(address))
    {
      customer := customer.(address := Some(address));
    }

    method SetEmail(email: string)
      modifies this
      ensures customer == old(customer).(email := Some(email))
    {
      customer := customer.(email := Some(email));
    }

    method SetPhone(phone: string)
      modifies this
      ensures customer == old(customer).(phone := Some(phone))
    {
      customer := customer.(phone := Some(phone));
    }

    /** `{ ...this.customer }`: a copy equal to the draft; the draft is not touched. */
    method GetCustomer() returns (c: Customer)
      ensures c == customer
    {
      c := customer;
    }

    method Clear()
      modifies this
      ensures customer == NoCustomer
    {
      customer := NoCustomer;
    }

    /** The per-field messages. The payment and address are reported when
        missing; the email and phone only when set but blank. Being a
        function, it changes nothing and gives equal answers for equal drafts. */
    function Validate(): (e: ValidationErrors)
      reads this
      ensures e.payment != "" <==> customer.payment.None?
      ensures e.address != "" <==> customer.address.None? || IsBlank(customer.address.value)
      ensures e.email != "" <==> customer.email.Some? && IsBlank(customer.email.value)
      ensures e.phone != "" <==> customer.phone.Some? && IsBlank(customer.phone.value)
      ensures e.payment in {"", PaymentMissing} && e.address in {"", AddressMissing}
      ensures e.email in {"", FieldMustBeFilled} && e.phone in {"", FieldMustBeFilled}
    {
      ValidationErrors(
        if customer.payment.None? then PaymentMissing else "",
        if UnsetOrBlank(customer.address) then AddressMissing else "",
        if SetButBlank(customer.email) then FieldMustBeFilled else "",
        if SetButBlank(customer.phone) then FieldMustBeFilled else "")
    }
  }
}

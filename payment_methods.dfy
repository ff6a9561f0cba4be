/**
 * The payment-methods settings page: the icon and the badge colour chosen
 * for a payment type, the optional blocks of a card, the count and the empty
 * state, and the page after loading.
 */
module PaymentMethods {
  import opened Common

  datatype PaymentIcon = CreditCardIcon | BanknoteIcon | SmartphoneIcon | Building2Icon

  /** A payment-method row as the page reads it; `paymentType` and `details` may be absent. */
  datatype PaymentMethod = PaymentMethod(id: string, name: string, paymentType: Option<string>,
                                         details: Option<string>)

  /** `switch (type?.toLowerCase())` choosing the icon; the default case reuses the card icon. */
  function GetPaymentMethodIcon(paymentType: string): (r: PaymentIcon)
    ensures r == BanknoteIcon <==> ToLower(paymentType) in {"cash", "especes"}
    ensures r == SmartphoneIcon <==> ToLower(paymentType) in {"mobile", "mobile_payment"}
    ensures r == Building2Icon <==> ToLower(paymentType) in {"bank", "bank_transfer"}
  {
    match ToLower(paymentType)
    case "card" => CreditCardIcon
    case "credit_card" => CreditCardIcon
    case "debit_card" => CreditCardIcon
    case "cash" => BanknoteIcon
    case "especes" => BanknoteIcon
    case "mobile" => SmartphoneIcon
    case "mobile_payment" => SmartphoneIcon
    case "bank" => Building2Icon
    case "bank_transfer" => Building2Icon
    case _ => CreditCardIcon
  }

  /** `switch (type?.toLowerCase())` choosing the badge colour; the default case is gray. */
  function GetPaymentMethodColor(paymentType: string): (r: BadgeColor)
    ensures r in {Blue, Green, Purple, Orange, Gray}
    ensures r == Blue <==> ToLower(paymentType) in {"card", "credit_card", "debit_card"}
    ensures r == Green <==> ToLower(paymentType) in {"cash", "especes"}
    ensures r == Purple <==> ToLower(paymentType) in {"mobile", "mobile_payment"}
    ensures r == Orange <==> ToLower(paymentType) in {"bank", "bank_transfer"}
  {
    match ToLower(paymentType)
    case "card" => Blue
    case "credit_card" => Blue
    case "debit_card" => Blue
    case "cash" => Green
    case "especes" => Green
    case "mobile" => Purple
    case "mobile_payment" => Purple
    case "bank" => Orange
    case "bank_transfer" => Orange
    case _ => Gray
  }

  /** Matching ignores case: a type is classified as its lower-case form is. */
  lemma PaymentClassificationIgnoresCase(s: string)
    ensures GetPaymentMethodIcon(s) == GetPaymentMethodIcon(ToLower(s))
    ensures GetPaymentMethodColor(s) == GetPaymentMethodColor(ToLower(s))
  {
    ToLowerIdempotent(s);
  }

  /** card, credit_card and debit_card, in any case: card icon, blue. */
  lemma CardGroup(s: string)
    requires ToLower(s) in {"card", "credit_card", "debit_card"}
    ensures GetPaymentMethodIcon(s) == CreditCardIcon
    ensures GetPaymentMethodColor(s) == Blue
  {
  }

  /** cash and especes, in any case: banknote icon, green. */
  lemma CashGroup(s: string)
    requires ToLower(s) in {"cash", "especes"}
    ensures GetPaymentMethodIcon(s) == BanknoteIcon
    ensures GetPaymentMethodColor(s) == Green
  {
  }

  /** mobile and mobile_payment, in any case: smartphone icon, purple. */
  lemma MobileGroup(s: string)
    requires ToLower(s) in {"mobile", "mobile_payment"}
    ensures GetPaymentMethodIcon(s) == SmartphoneIcon
    ensures GetPaymentMethodColor(s) == Purple
  {
  }

  /** bank and bank_transfer, in any case: building icon, orange. */
  lemma BankGroup(s: string)
    requires ToLower(s) in {"bank", "bank_transfer"}
    ensures GetPaymentMethodIcon(s) == Building2Icon
    ensures GetPaymentMethodColor(s) == Orange
  {
  }

  predicate IsKnownPaymentType(s: string)
  {
    ToLower(s) in {"card", "credit_card", "debit_card", "cash", "especes",
                   "mobile", "mobile_payment", "bank", "bank_transfer"}
  }

  /**
   * An unknown type gets the card's icon but not the card's colour: the two
   * defaults disagree, gray instead of blue.
   */
  lemma UnknownTypeDefaults(other: string)
    requires !IsKnownPaymentType(other)
    ensures GetPaymentMethodIcon(other) == CreditCardIcon == GetPaymentMethodIcon("card")
    ensures GetPaymentMethodColor(other) == Gray
    ensures GetPaymentMethodColor(other) != GetPaymentMethodColor("card")
  {
    LowerOfLowerIsIdentity("card");
    CardGroup("card");
  }

  /** What one payment-method card shows. */
  datatype CardView = CardView(icon: PaymentIcon, typeBadge: Option<BadgeColor>, showsDetails: bool)

  /** `getPaymentMethodIcon(method.type || '')`; the badge and the details block need truthy fields. */
  function PaymentMethodCard(m: PaymentMethod): (v: CardView)
    ensures v.icon == GetPaymentMethodIcon(OrEmpty(m.paymentType))
    ensures !Truthy(m.paymentType) ==> v.icon == CreditCardIcon
    ensures v.typeBadge.Some? <==> Truthy(m.paymentType)
    ensures v.typeBadge.Some? ==> v.typeBadge.value == GetPaymentMethodColor(m.paymentType.value)
    ensures v.showsDetails <==> Truthy(m.details)
  {
    CardView(
      GetPaymentMethodIcon(OrEmpty(m.paymentType)),
      if Truthy(m.paymentType) then Some(GetPaymentMethodColor(m.paymentType.value)) else None,
      Truthy(m.details))
  }

  /** The list part of the page: the count and either the empty state or the cards. */
  datatype ListView = ListView(count: nat, emptyState: bool, cards: seq<CardView>)

  function PaymentMethodList(ms: seq<PaymentMethod>): (v: ListView)
    ensures v.count == |ms|
    ensures v.emptyState <==> ms == []
    ensures |v.cards| == |ms|
    ensures forall i :: 0 <= i < |ms| ==> v.cards[i] == PaymentMethodCard(ms[i])
  {
    if ms == [] then ListView(0, true, [])
    else
      var rest := PaymentMethodList(ms[1..]);
      ListView(|ms|, false, [PaymentMethodCard(ms[0])] + rest.cards)
  }

  /** What `requireRole` followed by `getPaymentMethods` produced. */
  datatype LoadOutcome = Loaded(data: seq<PaymentMethod>) | Threw

  /**
   * The list shown once loading has finished: a failure is only logged, so
   * the list keeps its initial empty value and the empty state appears.
   */
  function ListAfterLoad(outcome: LoadOutcome): (v: ListView)
    ensures outcome.Threw? ==> v.emptyState && v.count == 0
    ensures outcome.Loaded? ==> v == PaymentMethodList(outcome.data) && v.count == |outcome.data|
  {
    match outcome
    case Loaded(data) => PaymentMethodList(data)
    case Threw => PaymentMethodList([])
  }
}

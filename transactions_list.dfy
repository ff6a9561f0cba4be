/**
 * The rendering decisions of the transactions list: one item per
 * transaction in input order, the locale tag used for dates and amounts,
 * the sign of the amount, and the optional equivalent and payment-method
 * blocks. The translation helpers are foreign and enter as a parameter.
 */
module TransactionsList {
  import opened Common

  datatype ListTransaction = ListTransaction(
    id: string, description: string, status: string, transactionType: string,
    amount: int, currency: string, paymentMethod: Option<string>, date: string,
    equivalent: Option<int>, ratio: Option<int>)

  /** A foreign translation helper, applied to a value and the language. */
  type Translator = (string, string) -> string

  /** `language === 'ar' ? 'ar-DZ' : language === 'fr' ? 'fr-FR' : 'en-US'`. */
  function LocaleTag(language: string): (tag: string)
    ensures tag in {"ar-DZ", "fr-FR", "en-US"}
    ensures tag == "ar-DZ" <==> language == "ar"
    ensures tag == "fr-FR" <==> language == "fr"
    ensures tag == "en-US" <==> language !in {"ar", "fr"}
  {
    if language == "ar" then "ar-DZ" else if language == "fr" then "fr-FR" else "en-US"
  }

  /** The prefix of the amount. */
  function AmountSign(t: ListTransaction): (sign: string)
    ensures sign in {"-", "+"}
    ensures sign == "-" <==> t.transactionType == "expense"
  {
    if t.transactionType == "expense" then "-" else "+"
  }

  /** `payment_method ? translatePaymentMethod(payment_method, language) : ''`. */
  function PaymentMethodLabel(t: ListTransaction, language: string,
                              translator: Translator): (shown: string)
    ensures !Truthy(t.paymentMethod) ==> shown == ""
    ensures Truthy(t.paymentMethod) ==> shown == translator(t.paymentMethod.value, language)
  {
    if Truthy(t.paymentMethod) then translator(t.paymentMethod.value, language) else ""
  }

  /** What stands in the equivalent slot of an item. */
  datatype EquivalentSlot = NoEquivalent | StrayText(text: string) | EquivalentBlock(value: int)

  /**
   * `{transaction.equivalent && (<div>…</div>)}` as written: React renders a
   * falsy number, so an equivalent of 0 leaves the text "0" in the item.
   */
  function EquivalentSlotAsWritten(equivalent: Option<int>): (slot: EquivalentSlot)
    ensures slot == StrayText("0") <==> equivalent == Some(0)
    ensures slot.EquivalentBlock? <==> equivalent.Some? && equivalent.value != 0
    ensures slot.EquivalentBlock? ==> slot.value == equivalent.value
  {
    match equivalent
    case None => NoEquivalent
    case Some(v) => if v == 0 then StrayText("0") else EquivalentBlock(v)
  }

  /** The slot as intended: the block for a non-zero equivalent, and nothing otherwise. */
  function EquivalentSlotIntended(equivalent: Option<int>): (slot: EquivalentSlot)
    ensures !slot.StrayText?
    ensures slot.EquivalentBlock? <==> equivalent.Some? && equivalent.value != 0
    ensures slot.EquivalentBlock? ==> slot.value == equivalent.value
  {
    if equivalent.Some? && equivalent.value != 0 then EquivalentBlock(equivalent.value) else NoEquivalent
  }

  /** The discrepancy: a zero equivalent puts a bare "0" in the item as written. */
  lemma ZeroEquivalentLeavesStrayText()
    ensures EquivalentSlotAsWritten(Some(0)) == StrayText("0")
    ensures EquivalentSlotIntended(Some(0)) == NoEquivalent
  {
  }

  /** On every other input the written and the intended slot agree. */
  lemma EquivalentSlotsAgreeOtherwise(equivalent: Option<int>)
    requires equivalent != Some(0)
    ensures EquivalentSlotAsWritten(equivalent) == EquivalentSlotIntended(equivalent)
  {
  }

  /** The decisions of one rendered item. */
  datatype ItemView = ItemView(
    key: string, dateLocale: string, sign: string, amountLocale: string, amount: int,
    equivalent: EquivalentSlot, paymentMethodBlock: Option<string>)

  /** One item as written: the equivalent slot follows line 69 literally, a 0 included. */
  function RenderItem(t: ListTransaction, language: string,
                      translator: Translator): (v: ItemView)
    ensures v.key == t.id && v.amount == t.amount
    ensures v.dateLocale == v.amountLocale == LocaleTag(language)
    ensures v.sign == AmountSign(t)
    ensures v.equivalent == EquivalentSlotAsWritten(t.equivalent)
    ensures v.equivalent == StrayText("0") <==> t.equivalent == Some(0)
    ensures v.paymentMethodBlock.Some? <==> PaymentMethodLabel(t, language, translator) != ""
    ensures !Truthy(t.paymentMethod) ==> v.paymentMethodBlock.None?
    ensures v.paymentMethodBlock.Some? ==> v.paymentMethodBlock.value == PaymentMethodLabel(t, language, translator)
  {
    var paymentLabel := PaymentMethodLabel(t, language, translator);
    ItemView(t.id, LocaleTag(language), AmountSign(t), LocaleTag(language), t.amount,
             EquivalentSlotAsWritten(t.equivalent),
             if paymentLabel != "" then Some(paymentLabel) else None)
  }

  /** The item as intended: the same decisions, with the corrected equivalent slot. */
  function RenderItemIntended(t: ListTransaction, language: string,
                              translator: Translator): (v: ItemView)
    ensures !v.equivalent.StrayText?
    ensures v.equivalent.EquivalentBlock? <==> t.equivalent.Some? && t.equivalent.value != 0
    ensures v.(equivalent := NoEquivalent) == RenderItem(t, language, translator).(equivalent := NoEquivalent)
  {
    RenderItem(t, language, translator).(equivalent := EquivalentSlotIntended(t.equivalent))
  }

  /** The written and the intended item differ exactly for a transaction whose equivalent is 0. */
  lemma ItemsDifferOnlyAtZeroEquivalent(t: ListTransaction, language: string, translator: Translator)
    ensures RenderItem(t, language, translator) == RenderItemIntended(t, language, translator)
            <==> t.equivalent != Some(0)
  {
    if t.equivalent == Some(0) {
      assert RenderItem(t, language, translator).equivalent == StrayText("0");
    } else {
      EquivalentSlotsAgreeOtherwise(t.equivalent);
    }
  }

  /** A child of the list container: an item, or the `children` passed in. */
  datatype Node = Item(view: ItemView) | Children

  function RenderItems(ts: seq<ListTransaction>, language: string,
                       translator: Translator): (items: seq<Node>)
    ensures |items| == |ts|
    ensures forall i :: 0 <= i < |ts| ==> items[i] == Item(RenderItem(ts[i], language, translator))
  {
    if ts == [] then [] else [Item(RenderItem(ts[0], language, translator))] + RenderItems(ts[1..], language, translator)
  }

  /** The whole container: the items in input order, then the children. */
  function RenderList(ts: seq<ListTransaction>, language: string,
                      translator: Translator): (nodes: seq<Node>)
    ensures |nodes| == |ts| + 1
    ensures nodes[|ts|] == Children
    ensures nodes[..|ts|] == RenderItems(ts, language, translator)
    ensures forall i :: 0 <= i < |ts| ==> nodes[i] == Item(RenderItem(ts[i], language, translator))
    ensures forall i :: 0 <= i < |ts| ==> nodes[i].Item? && nodes[i].view.key == ts[i].id
    ensures forall i :: 0 <= i < |ts| ==> (nodes[i].view.sign == "-" <==> ts[i].transactionType == "expense")
  {
    RenderItems(ts, language, translator) + [Children]
  }
}

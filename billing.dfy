/**
 * The Billing page: the billing-history filter and the "add payment method"
 * dialog, whose card inputs are kept formatted as they are typed.
 */
module Billing {
  import opened Seqs
  import opened Text
  import opened CardFormat

  datatype TransactionType = Payment | Refund {
    /** The string the type filter compares with. */
    function Name(): string {
      match this
      case Payment => "payment"
      case Refund => "refund"
    }
  }

  /** One row of the billing history; `total` is in cents. */
  datatype Transaction = Transaction(
    id: string,
    date: string,
    transactionId: string,
    service: string,
    orderNumber: string,
    total: int,
    kind: TransactionType)

  /** The page's filter controls; `"all"` in a select means no constraint. */
  datatype TransactionCriteria = TransactionCriteria(
    searchQuery: string,
    dateRange: string,
    transactionType: string,
    serviceFilter: string)

  /** The lowercased query occurs in the lowercased transaction id, order number or service. */
  predicate MatchesSearch(t: Transaction, query: string) {
    var q := Lower(query);
    Contains(Lower(t.transactionId), q) || Contains(Lower(t.orderNumber), q) || Contains(Lower(t.service), q)
  }

  predicate MatchesType(t: Transaction, transactionType: string) {
    transactionType == "all" || t.kind.Name() == transactionType
  }

  /** The predicate `filteredTransactions` applies; only the search and the type take part. */
  predicate Matches(t: Transaction, c: TransactionCriteria) {
    MatchesSearch(t, c.searchQuery) && MatchesType(t, c.transactionType)
  }

  /**
   * `filteredTransactions`: the transactions the criteria keep, in their
   * original order; with no search and type "all", every transaction.
   */
  function FilteredTransactions(ts: seq<Transaction>, c: TransactionCriteria): (r: seq<Transaction>)
    ensures forall t :: t in r <==> t in ts && Matches(t, c)
    ensures IsSubseq(r, ts)
    ensures forall t :: multiset(r)[t] == if Matches(t, c) then multiset(ts)[t] else 0
    ensures c.searchQuery == "" && c.transactionType == "all" ==> r == ts
  {
    var p := (t: Transaction) => Matches(t, c);
    FilterIsSubseq(ts, p);
    FilterCounts(ts, p);
    if c.searchQuery == "" && c.transactionType == "all" then
      AllMatchWithoutCriteria(ts, c);
      FilterAll(ts, p);
      Filter(ts, p)
    else Filter(ts, p)
  }

  lemma AllMatchWithoutCriteria(ts: seq<Transaction>, c: TransactionCriteria)
    requires c.searchQuery == "" && c.transactionType == "all"
    ensures forall t :: t in ts ==> Matches(t, c)
  {
    forall t | t in ts ensures Matches(t, c) {
      assert Lower(c.searchQuery) == "";
      ContainsEmpty(Lower(t.transactionId));
    }
  }

  /** The date-range and service selections have no effect on the list. */
  lemma DateAndServiceIgnored(ts: seq<Transaction>, c: TransactionCriteria, dateRange: string, serviceFilter: string)
    ensures FilteredTransactions(ts, c.(dateRange := dateRange, serviceFilter := serviceFilter))
         == FilteredTransactions(ts, c)
  {
    var c' := c.(dateRange := dateRange, serviceFilter := serviceFilter);
    FilterExt(ts, (t: Transaction) => Matches(t, c'), (t: Transaction) => Matches(t, c));
  }

  /** The fields of the "add payment method" dialog. */
  datatype NewCard = NewCard(number: string, expiry: string, cvc: string, name: string)

  datatype CardField = Number | Expiry | Cvc | Name

  const EmptyCard := NewCard("", "", "", "")

  /** The value `handleCardInputChange` stores for `field` when the user types `value`. */
  function CardInputText(field: CardField, value: string): string {
    match field
    case Number => CardNumberText(value)
    case Expiry => ExpiryDateText(value)
    case Cvc => SecurityCodeText(value)
    case Name => value
  }

  function WithField(card: NewCard, field: CardField, text: string): NewCard {
    match field
    case Number => card.(number := text)
    case Expiry => card.(expiry := text)
    case Cvc => card.(cvc := text)
    case Name => card.(name := text)
  }

  /** The dialog's state: whether it is open, and what has been typed. */
  class BillingPage {
    var isAddingCard: bool
    var newCard: NewCard

    constructor ()
      ensures !isAddingCard && newCard == EmptyCard
    {
      isAddingCard := false;
      newCard := EmptyCard;
    }

    /** The dialog's `onOpenChange`. */
    method SetAddingCard(open: bool)
      modifies this`isAddingCard
      ensures isAddingCard == open
    {
      isAddingCard := open;
    }

    /**
     * `handleCardInputChange`: only the edited field changes; the number is
     * grouped, the expiry formatted, the security code cut to four digits,
     * the name kept as typed.
     */
    method HandleCardInputChange(field: CardField, value: string)
      modifies this`newCard
      ensures newCard == WithField(old(newCard), field, CardInputText(field, value))
    {
      var formattedValue := value;
      match field {
        case Number =>
          formattedValue := FormatCardNumber(value);
        case Expiry =>
          formattedValue := ExpiryDateText(value);
        case Cvc =>
          formattedValue := SecurityCodeText(value);
        case Name =>
      }
      newCard := WithField(newCard, field, formattedValue);
    }

    /** `addPaymentMethod`: closes the dialog and clears every card field. */
    method AddPaymentMethod()
      modifies this
      ensures !isAddingCard && newCard == EmptyCard
    {
      isAddingCard := false;
      newCard := EmptyCard;
    }
  }
}

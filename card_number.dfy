/**
 * `CardNumber`: validates a card number typed by the user. A number whose
 * length is not 16 is reported without asking whether it exists; otherwise a
 * number no card carries is reported. The action collaborator that answers
 * `card_with_number_exists?` and `find_card_by_number` is a map from card
 * number to card.
 */
module CardNumber {
  import opened Wrappers
  import opened Validation
  import BaseCard

  /** The errors of one `validate` pass, given the collaborator's existence answer. */
  function NumberErrors(number: string, known: bool): (r: seq<ErrorTag>)
    ensures |r| <= 1
    ensures r == [] <==> |number| == 16 && known
  {
    if |number| != 16 then [NoCardWithNumber]
    else if !known then [WrongCardNumber]
    else []
  }

  /** The length check comes first: a wrong length is reported the same whatever the existence answer. */
  lemma LengthCheckFirst(number: string)
    requires |number| != 16
    ensures NumberErrors(number, true) == NumberErrors(number, false) == [NoCardWithNumber]
  {
  }

  /** A number of the right length is reported only when no card has it. */
  lemma UnknownNumberReported(number: string, known: bool)
    requires |number| == 16
    ensures NumberErrors(number, known) == (if known then [] else [WrongCardNumber])
    ensures NoCardWithNumber !in NumberErrors(number, known)
  {
  }

  /** Every number a card generates passes the length check. */
  lemma GeneratedNumbersHaveLength(number: string, known: bool)
    requires BaseCard.IsCardNumber(number)
    ensures NoCardWithNumber !in NumberErrors(number, known)
  {
  }

  class CardNumber {
    /** The action's cards, by number. */
    const cards: map<string, BaseCard.Card>
    const cardNumber: string
    const errors: ValidationErrors

    constructor (cards: map<string, BaseCard.Card>, cardNumber: string)
      ensures this.cards == cards && this.cardNumber == cardNumber
      ensures fresh(errors) && errors.messages == []
    {
      this.cards := cards;
      this.cardNumber := cardNumber;
      errors := new ValidationErrors();
    }

    /**
     * `card`: the collaborator's lookup of the same string the validator
     * checks. Whenever a `validate` pass reports nothing, there is a card.
     */
    function Card(): (r: Option<BaseCard.Card>)
      ensures r.Some? <==> cardNumber in cards
      ensures r.Some? ==> r.value == cards[cardNumber]
      ensures NumberErrors(cardNumber, cardNumber in cards) == [] ==> r.Some?
    {
      if cardNumber in cards then Some(cards[cardNumber]) else None
    }

    /**
     * `card_with_number_exists?` for the stored number. Both collaborator
     * calls read one map, so the existence answer and the lookup agree.
     */
    predicate Exists(): (b: bool)
      ensures b <==> Card().Some?
    {
      cardNumber in cards
    }

    /** `validate`: the length check, else the existence check; at most one error. */
    method Validate()
      modifies errors
      ensures errors.messages == old(errors.messages) + NumberErrors(cardNumber, Exists())
    {
      if |cardNumber| != 16 {
        errors.Push(NoCardWithNumber);
      } else if !Exists() {
        errors.Push(WrongCardNumber);
      }
    }

    /** `valid?`; a valid number always has a card to look up. */
    method IsValid() returns (ok: bool)
      modifies errors
      ensures errors.messages == old(errors.messages) + NumberErrors(cardNumber, Exists())
      ensures ok <==> errors.messages == []
      ensures ok ==> |cardNumber| == 16 && Card().Some?
    {
      Validate();
      ok := errors.IsEmpty();
    }
  }
}

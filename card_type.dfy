/**
 * `CardType`: validates the card type the user asks for. The input is
 * converted to a symbol and must be exactly one of the `CARD_TYPES` values.
 */
module CardType {
  import opened Validation
  import BaseCard

  /** `BaseCard::CARD_TYPES.invert.key?(type)`: exactly the symbols `create` builds a card for. */
  predicate KnownType(t: string): (b: bool)
    ensures b <==> BaseCard.VariantOf(t).Some?
  {
    BaseCard.CreateAcceptsCardTypes(t);
    t in BaseCard.CARD_TYPES.Values
  }

  /**
   * The errors of one `validate` pass: at most one, and none exactly for the
   * three type tags, which are also exactly the tags `create` builds a card for.
   */
  function TypeErrors(t: string): (r: seq<ErrorTag>)
    ensures r == [] || r == [WrongCardType]
    ensures r == [] <==> t == "usual" || t == "capitalist" || t == "virtual"
    ensures r == [] <==> BaseCard.VariantOf(t).Some?
  {
    BaseCard.CreateAcceptsCardTypes(t);
    AppendIf(!KnownType(t), WrongCardType)
  }

  /** Matching is exact: other words and other spellings of a tag are rejected. */
  lemma ExactMatch()
    ensures TypeErrors("test") == [WrongCardType]
    ensures TypeErrors("Usual") == [WrongCardType]
    ensures TypeErrors("VIRTUAL") == [WrongCardType]
    ensures TypeErrors("capitalist") == []
  {
  }

  class CardType {
    /** `type.to_sym`; symbols are modelled by their names. */
    const cardType: string
    const errors: ValidationErrors

    constructor (input: string)
      ensures cardType == input
      ensures fresh(errors) && errors.messages == []
    {
      cardType := input;
      errors := new ValidationErrors();
    }

    /** `validate`. */
    method Validate()
      modifies errors
      ensures errors.messages == old(errors.messages) + TypeErrors(cardType)
    {
      if !KnownType(cardType) {
        errors.Push(WrongCardType);
      }
    }

    /** `valid?`; a valid type is one `create` builds a card for. */
    method IsValid() returns (ok: bool)
      modifies errors
      ensures errors.messages == old(errors.messages) + TypeErrors(cardType)
      ensures ok <==> errors.messages == []
      ensures ok ==> BaseCard.VariantOf(cardType).Some?
    {
      Validate();
      ok := errors.IsEmpty();
    }
  }
}

/**
 * The append-only error list of the validation framework (`ValidationErrors`).
 * Messages are represented by tags; each tag stands for the I18n key the
 * validators pass to `I18n.t`.
 */
module Validation {

  /** Every message a validator of this model can append. */
  datatype ErrorTag =
    | NameFirstLetter
    | AgeLength
    | LoginPresent
    | LoginTooShort
    | LoginTooLong
    | LoginExists
    | PasswordPresent
    | PasswordTooShort
    | PasswordTooLong
    | NoCardWithNumber
    | WrongCardNumber
    | WrongCardType
    | WrongCommand

  /** The I18n key of each message (the localised text itself is not modelled). */
  function Key(e: ErrorTag): (k: string)
    ensures |k| > 0
  {
    match e
    case NameFirstLetter => "account_validation.name.first_letter"
    case AgeLength => "account_validation.age.length"
    case LoginPresent => "account_validation.login.present"
    case LoginTooShort => "account_validation.login.longer"
    case LoginTooLong => "account_validation.login.shorter"
    case LoginExists => "account_validation.login.exists"
    case PasswordPresent => "account_validation.password.present"
    case PasswordTooShort => "account_validation.password.longer"
    case PasswordTooLong => "account_validation.password.shorter"
    case NoCardWithNumber => "error.no_card_with_number"
    case WrongCardNumber => "error.wrong_card_number"
    case WrongCardType => "error.wrong_card_type"
    case WrongCommand => "error.wrong_command"
  }

  /** The errors one `errors << e if fires` step appends. */
  function AppendIf(fires: bool, e: ErrorTag): (r: seq<ErrorTag>)
    ensures e in r <==> fires
    ensures |r| <= 1 && forall x :: x in r ==> x == e
  {
    if fires then [e] else []
  }

  /**
   * `Array#join` with no separator: the messages one after the other. Every
   * message contributes at least one character, and the text starts with the
   * first message.
   */
  function Join(tags: seq<ErrorTag>): (s: string)
    ensures |s| >= |tags|
    ensures tags != [] ==> Key(tags[0]) <= s
  {
    if tags == [] then "" else Key(tags[0]) + Join(tags[1..])
  }

  /** Joining distributes over concatenation of error lists. */
  lemma {:induction false} JoinAppend(a: seq<ErrorTag>, b: seq<ErrorTag>)
    ensures Join(a + b) == Join(a) + Join(b)
  {
    if a == [] {
      assert a + b == b;
    } else {
      assert (a + b)[1..] == a[1..] + b;
      JoinAppend(a[1..], b);
    }
  }

  /** The joined text is empty exactly when no message was appended. */
  lemma {:induction false} JoinEmpty(tags: seq<ErrorTag>)
    ensures Join(tags) == "" <==> tags == []
  {
    if tags != [] {
      assert |Join(tags)| >= |Key(tags[0])| > 0;
    }
  }

  /**
   * The error list object. There is no removal operation: the only change
   * is `Push` (Ruby `<<`), so the list only grows.
   */
  class ValidationErrors {
    var messages: seq<ErrorTag>

    /** `ValidationErrors.new(errors = [])`. */
    constructor (initial: seq<ErrorTag> := [])
      ensures messages == initial
      ensures IsEmpty() <==> initial == []
    {
      messages := initial;
    }

    /** `<<`: appends at the end and keeps every earlier message in order. */
    method Push(e: ErrorTag)
      modifies this
      ensures messages == old(messages) + [e]
      ensures |messages| == |old(messages)| + 1
      ensures ToS() == old(ToS()) + Key(e)
      ensures !IsEmpty()
    {
      JoinAppend(messages, [e]);
      assert Join([e]) == Key(e) + Join([]);
      messages := messages + [e];
    }

    /** `empty?`. */
    function IsEmpty(): (b: bool)
      reads this
      ensures b <==> |messages| == 0
    {
      messages == []
    }

    /** `to_s`: the messages concatenated in order, empty exactly when the list is. */
    function ToS(): (s: string)
      reads this
      ensures s == "" <==> IsEmpty()
    {
      JoinEmpty(messages);
      Join(messages)
    }
  }
}

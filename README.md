# Card console: validation framework and card tax model

A Dafny model of the domain core of a small personal-finance console
application written in Ruby: users create accounts, hold payment cards of
three kinds (usual, capitalist, virtual) and move money between them.

The model covers two parts of that core.

- **The validation framework.** `ValidableEntity` and `ValidationErrors`
  keep an append-only error list. `valid?` runs the entity's `validate`,
  which appends every error of one pass, and then answers whether the list
  is empty. Four validators use it:
  - `AccountForm` runs five independent checks in one pass.
  - `CardNumber` runs a length check and then an existence check.
  - `CardType` checks membership in the three card type tags.
  - `BaseCommand`/`MainCommand` check membership in a fixed command table.
- **The card tax model.** `BaseCard` holds the per-class tax parameters, the
  three tax formulas, the `create` factory, the type tag and the 16-digit
  number fixed at construction. `VirtualCard` overrides the schedule.

Each Ruby file becomes one module, with two exceptions. `base_card.rb` is
split in two: its tax parameters and formulas are the module `TaxSchedule`,
the rest is `BaseCard`. The module `Wrappers` models no Ruby file; it holds
the `Option` and `Result` datatypes. Files that keep state in place become
classes.
- Every validator is a class with a `ValidationErrors` object. Its
  `Validate` and `IsValid` methods state the new error list as the old list
  plus the errors of one pass.
- Each pass is also given by a pure function (`FormErrors`, `NumberErrors`,
  `TypeErrors`, `CommandErrors`). Lemmas about those functions state the
  rules.
- What repeated `valid?` calls do is stated once, on values, in
  `Validable.AfterCalls`. `AccountForm.IsValidRepeatedly` ties it to the
  account form's list.
- The card hierarchy becomes one class `Card` with a `Variant` tag. Its tax
  parameters are the variant's overrides of `BaseCard`'s. Money is exact `real`.

Error messages are tags (`Validation.ErrorTag`). Each tag stands for its I18n
key.

The collaborators the source calls on its action object are parameters:
- `account_exists?` is a set of taken logins;
- `card_with_number_exists?` and `find_card_by_number` are a map from card
  number to card.

Ruby symbols are modelled by their names, so `to_sym` is the identity.

Where a looser description of these rules and the code differ, the model
follows the code:
- A name whose first character has no case (a digit, say) passes the name
  check, because only a change under `upcase` fails it.
- Card type matching is exact: `"Usual"` is rejected.

## Model

| member | source | states |
|---|---|---|
| `Validation.ValidationErrors.constructor` | app/entities/validator/validation_errors.rb:7-9 | a new list holds exactly the initial messages, empty by default, and `empty?` holds iff it was given none |
| `Validation.ValidationErrors.Push` | app/entities/validator/validation_errors.rb:5 | `<<` appends at the end, keeps every earlier message in order, grows the length by one, extends `to_s` by the new message, and `empty?` is false afterwards |
| `Validation.ValidationErrors.ToS` | app/entities/validator/validation_errors.rb:11-13 | `to_s` is empty iff the list is empty |
| `Validation.Join` | app/entities/validator/validation_errors.rb:11-13 | `to_s` has at least one character per message and starts with the first message |
| `Validation.AppendIf` | app/entities/account/account_form.rb:56-58 | one `errors << e if c` step appends `e` iff `c` holds, and nothing else |
| `Validation.JoinAppend` | app/entities/validator/validation_errors.rb:11-13 | joining with no separator distributes over concatenation of message lists |
| `Validation.JoinEmpty` | app/entities/validator/validation_errors.rb:11-13 | the joined text is empty iff there are no messages |
| `Validable.AfterCallsLength` | app/entities/validator/validable_entity.rb:6-9 | after k calls of `valid?` the list is k pass lengths longer than at the start |
| `Validable.ErrorsNeverCleared` | app/entities/validator/validable_entity.rb:2-9 | the list after j calls is a prefix of the list after any later call |
| `Validable.OnceInvalidStaysInvalid` | app/entities/validator/validable_entity.rb:2-9 | once `valid?` answers false, every later call on the same entity answers false |
| `Validable.EveryCallGrows` | app/entities/validator/validable_entity.rb:6-9 | on an entity whose pass reports errors, every call makes the list longer (not idempotent) |
| `Validable.CleanPassKeepsList` | app/entities/validator/validable_entity.rb:6-9 | an entity whose `validate` appends nothing keeps its list unchanged across calls |
| `Validable.FreshEntityValidIff` | app/entities/validator/validable_entity.rb:2-9 | on a new entity, any later `valid?` answers true iff its pass appends nothing |
| `AccountForm.Upcase` | app/entities/account/account_form.rb:53 | `upcase` leaves a character unchanged iff it is not an ASCII lower-case letter (`a`..`z`) |
| `AccountForm.CheckPredicates` | app/entities/account/account_form.rb:32-54 | what `login_short?`, `login_long?`, `password_short?`, `password_long?`, `age_invalid?` and `name_invalid?` mean: a name is invalid iff empty or starting with `a`..`z`, an age iff outside 23..90, an empty login or password is also too short, and no field is both too short and too long |
| `AccountForm.NameErrors` | app/entities/account/account_form.rb:52-58 | `validate_name` appends at most the first-letter error, and none iff the name is non-empty and its first character is not in `a`..`z` |
| `AccountForm.AgeErrors` | app/entities/account/account_form.rb:48-62 | `validate_age` appends at most the age error, and none iff 23 <= age <= 90 |
| `AccountForm.LoginErrors` | app/entities/account/account_form.rb:64-68 | `validate_login` appends at most two errors; present iff empty, too short iff length < 4, too long iff length > 20; none iff 4 <= length <= 20 |
| `AccountForm.ExistsErrors` | app/entities/account/account_form.rb:76-78 | `validate_accounts_exists` appends the exists error iff the login is taken |
| `AccountForm.PasswordErrors` | app/entities/account/account_form.rb:70-74 | `validate_password` appends at most two errors; present iff empty, too short iff length < 6, too long iff length > 30 |
| `AccountForm.FormErrors` | app/entities/account/account_form.rb:20-78 | one pass yields at most 7 errors, and none iff the name is non-empty and does not start with `a`..`z`, the age is in 23..90, the login has 4..20 characters and is not taken, and the password has 6..30 |
| `AccountForm.NameAndAgeTags` | app/entities/account/account_form.rb:48-62 | the name error is in a pass iff the name is empty or starts with `a`..`z`; the age error iff age is outside 23..90 |
| `AccountForm.LoginTags` | app/entities/account/account_form.rb:28-38 | the three login errors and the exists error are each in a pass iff their condition holds |
| `AccountForm.PasswordTags` | app/entities/account/account_form.rb:40-46 | the three password errors are each in a pass iff their condition holds |
| `AccountForm.FormErrorTags` | app/entities/account/account_form.rb:20-78 | every tag of a pass, each as an if-and-only-if on the input, and no card or command error |
| `AccountForm.ThreeInCheckOrder` | app/entities/account/account_form.rb:64-74 | three conditional appends whose tags rise in the check order keep that order, whichever of them fire |
| `AccountForm.PartsInCheckOrder` | app/entities/account/account_form.rb:64-74 | login and password errors come in the order present, too short, too long |
| `AccountForm.FormErrorsInCheckOrder` | app/entities/account/account_form.rb:20-26 | a pass lists its errors in the fixed order name, age, login, login taken, password, each at most once |
| `AccountForm.LengthErrorsExclusive` | app/entities/account/account_form.rb:32-46 | too short and too long never fire together, for the login and for the password |
| `AccountForm.EmptyFieldsReportTwice` | app/entities/account/account_form.rb:64-74 | an empty login or password yields both the present error and the too-short error |
| `AccountForm.TakenLoginAlwaysReported` | app/entities/account/account_form.rb:28-30 | a taken login is reported and rejects the form whatever the other fields hold |
| `AccountForm.TestInputs` | spec/console_spec.rb:80-184 | the test inputs give the expected errors: `some_test_name`, ages 22 and 91, an empty, a 3-letter and a 21-letter login, a taken login, an empty, a 5-letter and a 31-letter password; and, as an extra example, a name starting with a digit passes |
| `AccountForm.AccountForm.constructor` | app/entities/account/account_form.rb:8-12 | the form keeps its data and collaborator and starts with an empty error list |
| `AccountForm.AccountForm.ValidateName` | app/entities/account/account_form.rb:56-58 | appends exactly the name errors |
| `AccountForm.AccountForm.ValidateAge` | app/entities/account/account_form.rb:60-62 | appends exactly the age errors |
| `AccountForm.AccountForm.ValidateLogin` | app/entities/account/account_form.rb:64-68 | appends exactly the login errors |
| `AccountForm.AccountForm.ValidateAccountsExists` | app/entities/account/account_form.rb:76-78 | appends the exists error iff `account_exists?`, the collaborator's answer for the form's login, is true |
| `AccountForm.AccountForm.ValidatePassword` | app/entities/account/account_form.rb:70-74 | appends exactly the password errors |
| `AccountForm.AccountForm.Validate` | app/entities/account/account_form.rb:20-26 | runs all five checks and appends one whole pass |
| `AccountForm.AccountForm.IsValid` | app/entities/validator/validable_entity.rb:6-9 | appends one pass; answers true iff the list is then empty, i.e. iff it was empty and the form is acceptable |
| `AccountForm.AccountForm.IsValidRepeatedly` | app/entities/validator/validable_entity.rb:6-9 | k calls of `valid?` leave the starting list plus k passes; each answer is true iff the list is empty after that call, and once an answer is false every later one is false |
| `TaxSchedule.InheritedDefaults` | app/entities/card/base_card.rb:44-74 | a class that overrides nothing pays 0 put and send tax, and its withdraw tax raises |
| `TaxSchedule.WithdrawTaxDefinedIff` | app/entities/card/base_card.rb:44-66 | the withdraw tax fails iff the class leaves the withdraw percentage undefined |
| `TaxSchedule.TaxesMonotone` | app/entities/card/base_card.rb:68-74 | `put_tax` and `sender_tax` of a zero amount are the fixed parts; with non-negative percentages a larger amount never pays less |
| `TaxSchedule.TaxesAffine` | app/entities/card/base_card.rb:64-74 | `withdraw_tax`, `put_tax` and `sender_tax` are proportional to the amount apart from the fixed part: taxing a + b charges the fixed part once, and the withdraw tax adds up |
| `VirtualCard.VirtualOverrides` | app/entities/card/virtual_card.rb:6-16 | for every amount: withdraw tax is 5 % of it, put tax is 2, send tax is 20 |
| `VirtualCard.VirtualExamples` | app/entities/card/virtual_card.rb:6-12 | a withdrawal of 100 pays 5; a put of 50 on 50 reports 98 |
| `BaseCard.TypeOf` | app/entities/card/base_card.rb:24-26 | `type` is one of the `CARD_TYPES` values |
| `BaseCard.VariantOf` | app/entities/card/base_card.rb:11-16 | the `case` of `create` picks a variant only for a symbol that is that variant's `type` |
| `BaseCard.CreateTypeRoundTrip` | app/entities/card/base_card.rb:11-26 | `create` builds variant v from a tag iff the tag is the `type` of v |
| `BaseCard.TypesDistinct` | app/entities/card/base_card.rb:2-6 | the three variants have three different type tags |
| `BaseCard.CreateAcceptsCardTypes` | app/entities/card/base_card.rb:2-17 | `create` returns a card for exactly the values of `CARD_TYPES` |
| `BaseCard.GenerateNumber` | app/entities/card/base_card.rb:28-30 | a generated number has 16 characters, each a digit 0..8 |
| `BaseCard.DefaultBalances` | app/entities/card/virtual_card.rb:2-4 | a card created without a balance starts at 150 if virtual and at `BaseCard`'s 0 otherwise |
| `BaseCard.Card.constructor` | app/entities/card/base_card.rb:19-22 | a card keeps its variant, balance and the class parameters, and has a generated 16-digit number |
| `BaseCard.Card.Type` | app/entities/card/base_card.rb:24-26 | `type` is the symbol `create` builds this card's variant from |
| `BaseCard.Card.WithdrawTax` | app/entities/card/base_card.rb:64-66 | `withdraw_tax` fails iff the class leaves the percentage undefined; a virtual card pays 5 % of the amount |
| `BaseCard.Card.PutTax` | app/entities/card/base_card.rb:68-70 | `put_tax` is 0 for a class that overrides nothing and 2 for a virtual card, whatever the amount |
| `BaseCard.Card.SenderTax` | app/entities/card/base_card.rb:72-74 | `sender_tax` is 0 for a class that overrides nothing and 20 for a virtual card, whatever the amount |
| `BaseCard.Card.UpdateBalance` | app/entities/card/base_card.rb:76-78 | the balance becomes exactly the given value; number, type and taxes are constant |
| `BaseCard.Create` | app/entities/card/base_card.rb:11-17 | `nil` iff the tag is not a card type; otherwise a new card of that variant whose type is the tag, with the given or default balance |
| `BaseCard.PutOfFiftyOnFifty` | spec/console_spec.rb:607-626 | for every variant a put of 50 on 50 reports 100 minus that card's put tax (98 for a virtual card) |
| `CardNumber.NumberErrors` | app/entities/card/card_number.rb:12-18 | at most one error per pass, and none iff the length is 16 and a card has the number |
| `CardNumber.LengthCheckFirst` | app/entities/card/card_number.rb:13-14 | a wrong length gives exactly the no-card error whatever the existence answer |
| `CardNumber.UnknownNumberReported` | app/entities/card/card_number.rb:15-16 | at length 16, exactly the wrong-number error iff no card has the number |
| `CardNumber.GeneratedNumbersHaveLength` | app/entities/card/card_number.rb:13-14 | a number a card generated never fails the length check |
| `CardNumber.CardNumber.constructor` | app/entities/card/card_number.rb:2-6 | keeps the number and collaborator; starts with an empty error list |
| `CardNumber.CardNumber.Card` | app/entities/card/card_number.rb:8-10 | whenever a `validate` pass reports nothing, `card` finds a card, the collaborator's card for that number |
| `CardNumber.CardNumber.Exists` | app/entities/card/card_number.rb:15 | `card_with_number_exists?` answers yes iff `card` finds a card |
| `CardNumber.CardNumber.Validate` | app/entities/card/card_number.rb:12-18 | appends exactly the errors of one pass |
| `CardNumber.CardNumber.IsValid` | app/entities/validator/validable_entity.rb:6-9 | answers true iff the list is then empty; a valid number has length 16 and, given that the two collaborator answers agree, a card to look up |
| `CardType.KnownType` | app/entities/card/card_type.rb:10 | a symbol is a `CARD_TYPES` value iff `create` builds a card for it |
| `CardType.TypeErrors` | app/entities/card/card_type.rb:9-11 | at most the wrong-type error; none iff the type is `usual`, `capitalist` or `virtual`, exactly the tags `create` accepts |
| `CardType.ExactMatch` | app/entities/card/card_type.rb:10 | matching is exact: `test` (the tests' input), `Usual` and `VIRTUAL` are rejected; `capitalist` passes |
| `CardType.CardType.constructor` | app/entities/card/card_type.rb:4-7 | keeps the converted input; starts with an empty error list |
| `CardType.CardType.Validate` | app/entities/card/card_type.rb:9-11 | appends exactly the errors of one pass |
| `CardType.CardType.IsValid` | app/entities/validator/validable_entity.rb:6-9 | answers true iff the list is then empty; a valid type is one `create` builds a card for |
| `BaseCommand.CommandErrors` | app/console/command/base_command.rb:13-15 | at most the wrong-command error; none iff the command has an action |
| `BaseCommand.BaseCommand.constructor` | app/console/command/base_command.rb:4-7 | keeps the table and the converted command; starts with an empty error list |
| `BaseCommand.BaseCommand.Run` | app/console/command/base_command.rb:9-11 | `run` has an action to call iff the command passes validation; the context plays no part |
| `BaseCommand.BaseCommand.Validate` | app/console/command/base_command.rb:13-15 | appends exactly the errors of one pass |
| `BaseCommand.BaseCommand.IsValid` | app/entities/validator/validable_entity.rb:6-9 | answers true iff the list is then empty; a valid command has an action to run |
| `MainCommand.Commands` | app/console/command/main_command.rb:2-11 | the table's keys are `SC CC DC PM WM SM DA exit`, and different keys name different actions |
| `MainCommand.EightCommands` | app/console/command/main_command.rb:3-10 | the table has exactly eight keys |
| `MainCommand.CommandTargets` | app/console/command/main_command.rb:3-10 | `SC` runs `show_cards`, `DA` runs `destroy_account`, `exit` runs `stop_loop` |
| `MainCommand.UnknownCommandsRejected` | app/console/command/base_command.rb:14 | keys match exactly: `sc`, `EXIT` and `undefined` (the tests' input) get the wrong-command error |
| `MainCommand.New` | app/console/command/main_command.rb:1-12 | a main command is a base command over that fixed table |

## Left out

- Terminal input and output, confirmation prompts and the menu loop are not part of this model. Callers supply already parsed inputs.
- Message text: `I18n.t` and its interpolated values (`min`, `max`, `number`) are not modelled. A message is its tag, and `to_s` joins the tags' I18n keys.
- `each` on the error list is not a separate member. It enumerates the `messages` sequence in order.
- The lazy `errors ||= ValidationErrors.new` is modelled as a list created in each validator's constructor. The same object is returned on every call in both cases.
- `ValidationErrors.new(errors)` shares the caller's array in Ruby. The model copies the value, so aliasing of that array is not captured.
- `ValidableEntity` is a superclass in Ruby. Without inheritance, each validator class has its own `Validate`/`IsValid`. The shared behaviour across repeated calls is stated once in `Validable`.
- CardNumber.CardNumber.IsValid: `card_with_number_exists?` and `find_card_by_number` go to an action object that is not part of this model. The model answers both from one map, so it assumes the two answers agree.
- Collaborators (`account_exists?`, `card_with_number_exists?`, `find_card_by_number`) are constant for the life of one validator object. The model does not cover a store that changes between two `valid?` calls.
- `AccountForm.create_account` only forwards the form data to the action object, which is not part of this model.
- AccountForm.Upcase: maps only the ASCII letters. Ruby's Unicode case mapping of other letters (for example `é`) is not modelled, so `AccountForm.NameInvalid`, `AccountForm.NameErrors`, `AccountForm.FormErrors`, `AccountForm.Acceptable` and the lemmas about them accept a name such as `élodie` that Ruby rejects.
- Floating point: the `/ 100.0` of the tax formulas is exact real division. Float rounding is not modelled.
- `rand(9)` is an arbitrary choice of a digit 0..8 for each position. The distribution and the chance of two cards drawing the same number are not modelled.
- `UsualCard` and `CapitalistCard` are not part of this model. Their tax overrides are a parameter (`BaseCard.Schedules`).
- BaseCard.DefaultBalance: assumes `UsualCard` and `CapitalistCard` inherit `BaseCard`'s initializer (default 0), since their source is not part of this model.
- `withdraw_money`, `put_money` and `send_money` hand over to transaction classes, which are not part of this model. Only the put-balance arithmetic the console tests assert is stated.
- The missing `withdraw_tax_percent` raises `NoImplementedError`, a misspelt constant, so Ruby would raise a `NameError` instead. The model only records that the call fails, as `Err(NotImplemented)`.
- `run` calls the context's method by reflection (`context.method(...).call`). Only the table lookup is modelled.
- Ruby symbols are modelled by their names, so `to_sym` is the identity on strings.

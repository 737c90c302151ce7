/**
 * `AccountForm`: the account-creation validator. One `validate` pass runs five
 * independent checks (name, age, login, login taken, password) and appends the
 * errors of all of them, in that order; nothing short-circuits.
 */
module AccountForm {
  import opened Validation
  import Validable

  const MIN_LOGIN_LENGTH: nat := 4
  const MAX_LOGIN_LENGTH: nat := 20
  const MIN_PASSWORD_LENGTH: nat := 6
  const MAX_PASSWORD_LENGTH: nat := 30
  /** The inclusive range `AGE = (23..90)`. */
  const AGE_MIN: int := 23
  const AGE_MAX: int := 90

  /** The form data hash: `name`, `age` (already `to_i`), `login`, `password`. */
  datatype FormData = FormData(name: string, age: int, login: string, password: string)

  /** `String#upcase` on one character, for the ASCII letters: it changes exactly the lower-case ones. */
  function Upcase(c: char): (u: char)
    ensures u == c <==> !('a' <= c <= 'z')
    ensures 'a' <= c <= 'z' ==> 'A' <= u <= 'Z'
  {
    if 'a' <= c <= 'z' then (c as int - 32) as char else c
  }

  predicate LoginShort(d: FormData) { |d.login| < MIN_LOGIN_LENGTH }
  predicate LoginLong(d: FormData) { |d.login| > MAX_LOGIN_LENGTH }
  predicate PasswordShort(d: FormData) { |d.password| < MIN_PASSWORD_LENGTH }
  predicate PasswordLong(d: FormData) { |d.password| > MAX_PASSWORD_LENGTH }
  predicate AgeInvalid(d: FormData) { !(AGE_MIN <= d.age <= AGE_MAX) }
  predicate NameInvalid(d: FormData) { |d.name| == 0 || Upcase(d.name[0]) != d.name[0] }

  /**
   * What the private checks mean on the data: a name is invalid exactly when
   * it is empty or starts with a lower-case letter, an age exactly outside
   * 23..90, an empty login or password is also too short, and no field is
   * both too short and too long.
   */
  lemma CheckPredicates(d: FormData)
    ensures NameInvalid(d) <==> |d.name| == 0 || 'a' <= d.name[0] <= 'z'
    ensures AgeInvalid(d) <==> d.age < 23 || d.age > 90
    ensures |d.login| == 0 ==> LoginShort(d)
    ensures |d.password| == 0 ==> PasswordShort(d)
    ensures !(LoginShort(d) && LoginLong(d))
    ensures !(PasswordShort(d) && PasswordLong(d))
  {
  }

  /** The position of each account error in the fixed check order. */
  function Rank(e: ErrorTag): nat
  {
    match e
    case NameFirstLetter => 0
    case AgeLength => 1
    case LoginPresent => 2
    case LoginTooShort => 3
    case LoginTooLong => 4
    case LoginExists => 5
    case PasswordPresent => 6
    case PasswordTooShort => 7
    case PasswordTooLong => 8
    case _ => 9
  }

  predicate InCheckOrder(r: seq<ErrorTag>)
  {
    forall i, j :: 0 <= i < j < |r| ==> Rank(r[i]) < Rank(r[j])
  }

  /** The errors appended by `validate_name`. */
  function NameErrors(d: FormData): (r: seq<ErrorTag>)
    ensures r == [] || r == [NameFirstLetter]
    ensures r == [] <==> |d.name| > 0 && !('a' <= d.name[0] <= 'z')
  {
    AppendIf(NameInvalid(d), NameFirstLetter)
  }

  /** The errors appended by `validate_age`. */
  function AgeErrors(d: FormData): (r: seq<ErrorTag>)
    ensures r == [] || r == [AgeLength]
    ensures r == [] <==> 23 <= d.age <= 90
  {
    AppendIf(AgeInvalid(d), AgeLength)
  }

  /** The errors appended by `validate_login`: three independent checks. */
  function LoginErrors(d: FormData): (r: seq<ErrorTag>)
    ensures |r| <= 2
    ensures r == [] <==> 4 <= |d.login| <= 20
    ensures forall e :: e in r ==> 2 <= Rank(e) <= 4
    ensures LoginPresent in r <==> |d.login| == 0
    ensures LoginTooShort in r <==> |d.login| < 4
    ensures LoginTooLong in r <==> |d.login| > 20
  {
    AppendIf(|d.login| == 0, LoginPresent)
    + AppendIf(LoginShort(d), LoginTooShort)
    + AppendIf(LoginLong(d), LoginTooLong)
  }

  /** The errors appended by `validate_accounts_exists`, given the collaborator's answer. */
  function ExistsErrors(taken: bool): (r: seq<ErrorTag>)
    ensures r == [] || r == [LoginExists]
    ensures r == [] <==> !taken
  {
    AppendIf(taken, LoginExists)
  }

  /** The errors appended by `validate_password`: three independent checks. */
  function PasswordErrors(d: FormData): (r: seq<ErrorTag>)
    ensures |r| <= 2
    ensures r == [] <==> 6 <= |d.password| <= 30
    ensures forall e :: e in r ==> 6 <= Rank(e) <= 8
    ensures PasswordPresent in r <==> |d.password| == 0
    ensures PasswordTooShort in r <==> |d.password| < 6
    ensures PasswordTooLong in r <==> |d.password| > 30
  {
    AppendIf(|d.password| == 0, PasswordPresent)
    + AppendIf(PasswordShort(d), PasswordTooShort)
    + AppendIf(PasswordLong(d), PasswordTooLong)
  }

  /**
   * The acceptance rule stated directly: a non-empty name whose first character
   * is not a lower-case letter, an age in 23..90, a free login of 4..20
   * characters and a password of 6..30 characters.
   */
  predicate Acceptable(d: FormData, taken: bool)
  {
    && |d.name| > 0 && !('a' <= d.name[0] <= 'z')
    && 23 <= d.age <= 90
    && 4 <= |d.login| <= 20 && !taken
    && 6 <= |d.password| <= 30
  }

  /** One `validate` pass: at most seven errors, none exactly when the form is acceptable. */
  function FormErrors(d: FormData, taken: bool): (r: seq<ErrorTag>)
    ensures |r| <= 7
    ensures r == [] <==> Acceptable(d, taken)
  {
    NameErrors(d) + AgeErrors(d) + LoginErrors(d) + ExistsErrors(taken) + PasswordErrors(d)
  }

  /** Five error lists appended one after another, on abstract sequences. */
  lemma Concat5(s0: seq<ErrorTag>, n: seq<ErrorTag>, a: seq<ErrorTag>, l: seq<ErrorTag>, x: seq<ErrorTag>, p: seq<ErrorTag>)
    ensures s0 + n + a + l + x + p == s0 + (n + a + l + x + p)
    ensures forall e :: e in n + a + l + x + p <==> e in n || e in a || e in l || e in x || e in p
  {
  }

  /** The five parts of one pass, as `FormErrors` concatenates them. */
  lemma FormErrorsParts(d: FormData, taken: bool)
    ensures forall e :: e in FormErrors(d, taken) <==>
      e in NameErrors(d) || e in AgeErrors(d) || e in LoginErrors(d) || e in ExistsErrors(taken) || e in PasswordErrors(d)
  {
    Concat5([], NameErrors(d), AgeErrors(d), LoginErrors(d), ExistsErrors(taken), PasswordErrors(d));
  }

  lemma NameAndAgeTags(d: FormData, taken: bool)
    ensures NameFirstLetter in FormErrors(d, taken) <==> |d.name| == 0 || 'a' <= d.name[0] <= 'z'
    ensures AgeLength in FormErrors(d, taken) <==> d.age < 23 || d.age > 90
  {
    FormErrorsParts(d, taken);
  }

  lemma LoginTags(d: FormData, taken: bool)
    ensures LoginPresent in FormErrors(d, taken) <==> |d.login| == 0
    ensures LoginTooShort in FormErrors(d, taken) <==> |d.login| < 4
    ensures LoginTooLong in FormErrors(d, taken) <==> |d.login| > 20
    ensures LoginExists in FormErrors(d, taken) <==> taken
  {
    var n, a, l, x, p := NameErrors(d), AgeErrors(d), LoginErrors(d), ExistsErrors(taken), PasswordErrors(d);
    Concat5([], n, a, l, x, p);
    assert FormErrors(d, taken) == n + a + l + x + p;
  }

  lemma PasswordTags(d: FormData, taken: bool)
    ensures PasswordPresent in FormErrors(d, taken) <==> |d.password| == 0
    ensures PasswordTooShort in FormErrors(d, taken) <==> |d.password| < 6
    ensures PasswordTooLong in FormErrors(d, taken) <==> |d.password| > 30
  {
    FormErrorsParts(d, taken);
  }

  /** Which tags one pass contains, each as an if-and-only-if on the input; no card or command error appears. */
  lemma FormErrorTags(d: FormData, taken: bool)
    ensures NameFirstLetter in FormErrors(d, taken) <==> |d.name| == 0 || 'a' <= d.name[0] <= 'z'
    ensures AgeLength in FormErrors(d, taken) <==> d.age < 23 || d.age > 90
    ensures LoginPresent in FormErrors(d, taken) <==> |d.login| == 0
    ensures LoginTooShort in FormErrors(d, taken) <==> |d.login| < 4
    ensures LoginTooLong in FormErrors(d, taken) <==> |d.login| > 20
    ensures LoginExists in FormErrors(d, taken) <==> taken
    ensures PasswordPresent in FormErrors(d, taken) <==> |d.password| == 0
    ensures PasswordTooShort in FormErrors(d, taken) <==> |d.password| < 6
    ensures PasswordTooLong in FormErrors(d, taken) <==> |d.password| > 30
    ensures forall e :: e in FormErrors(d, taken) ==> Rank(e) <= 8
  {
    NameAndAgeTags(d, taken);
    LoginTags(d, taken);
    PasswordTags(d, taken);
    FormErrorsParts(d, taken);
  }

  /** Appending a list whose ranks all lie above those of the first keeps the check order. */
  lemma OrderedAppend(a: seq<ErrorTag>, b: seq<ErrorTag>, bound: nat)
    requires InCheckOrder(a) && InCheckOrder(b)
    requires forall e :: e in a ==> Rank(e) < bound
    requires forall e :: e in b ==> bound <= Rank(e)
    ensures InCheckOrder(a + b)
  {
    forall i, j | 0 <= i < j < |a + b|
      ensures Rank((a + b)[i]) < Rank((a + b)[j])
    {
      if j < |a| {
      } else if i >= |a| {
        assert (a + b)[i] == b[i - |a|] && (a + b)[j] == b[j - |a|];
      } else {
        assert (a + b)[i] in a && (a + b)[j] in b;
      }
    }
  }

  /** Three `errors << e if c` steps whose tags rise in rank leave their errors in check order. */
  lemma ThreeInCheckOrder(c1: bool, e1: ErrorTag, c2: bool, e2: ErrorTag, c3: bool, e3: ErrorTag)
    requires Rank(e1) < Rank(e2) < Rank(e3)
    ensures InCheckOrder(AppendIf(c1, e1) + AppendIf(c2, e2) + AppendIf(c3, e3))
  {
    OrderedAppend(AppendIf(c1, e1), AppendIf(c2, e2), Rank(e2));
    OrderedAppend(AppendIf(c1, e1) + AppendIf(c2, e2), AppendIf(c3, e3), Rank(e3));
  }

  /** Login and password errors come in the order present, too short, too long. */
  lemma PartsInCheckOrder(d: FormData)
    ensures InCheckOrder(LoginErrors(d)) && InCheckOrder(PasswordErrors(d))
  {
    ThreeInCheckOrder(|d.login| == 0, LoginPresent, LoginShort(d), LoginTooShort, LoginLong(d), LoginTooLong);
    ThreeInCheckOrder(|d.password| == 0, PasswordPresent, PasswordShort(d), PasswordTooShort,
                      PasswordLong(d), PasswordTooLong);
  }

  /** Five lists, each in check order and each ranked above the ones before, append in check order. */
  lemma FiveInCheckOrder(n: seq<ErrorTag>, a: seq<ErrorTag>, l: seq<ErrorTag>, x: seq<ErrorTag>, p: seq<ErrorTag>)
    requires InCheckOrder(n) && InCheckOrder(a) && InCheckOrder(l) && InCheckOrder(x) && InCheckOrder(p)
    requires forall e :: e in n ==> Rank(e) < 1
    requires forall e :: e in a ==> Rank(e) == 1
    requires forall e :: e in l ==> 2 <= Rank(e) <= 4
    requires forall e :: e in x ==> Rank(e) == 5
    requires forall e :: e in p ==> 6 <= Rank(e)
    ensures InCheckOrder(n + a + l + x + p)
  {
    OrderedAppend(n, a, 1);
    OrderedAppend(n + a, l, 2);
    OrderedAppend(n + a + l, x, 5);
    OrderedAppend(n + a + l + x, p, 6);
  }

  /** The errors of one pass come in the fixed order name, age, login, login taken, password, each at most once. */
  lemma FormErrorsInCheckOrder(d: FormData, taken: bool)
    ensures InCheckOrder(FormErrors(d, taken))
  {
    PartsInCheckOrder(d);
    FiveInCheckOrder(NameErrors(d), AgeErrors(d), LoginErrors(d), ExistsErrors(taken), PasswordErrors(d));
  }

  /** The two login length errors exclude each other, and so do the two password length errors. */
  lemma LengthErrorsExclusive(d: FormData, taken: bool)
    ensures !(LoginTooShort in FormErrors(d, taken) && LoginTooLong in FormErrors(d, taken))
    ensures !(PasswordTooShort in FormErrors(d, taken) && PasswordTooLong in FormErrors(d, taken))
  {
    FormErrorTags(d, taken);
  }

  /** An empty login or password is reported both as missing and as too short. */
  lemma EmptyFieldsReportTwice(d: FormData, taken: bool)
    ensures |d.login| == 0 ==> LoginPresent in FormErrors(d, taken) && LoginTooShort in FormErrors(d, taken)
    ensures |d.password| == 0 ==> PasswordPresent in FormErrors(d, taken) && PasswordTooShort in FormErrors(d, taken)
  {
    FormErrorTags(d, taken);
  }

  /** A taken login is always reported, whatever the other fields hold. */
  lemma TakenLoginAlwaysReported(d: FormData)
    ensures LoginExists in FormErrors(d, true)
    ensures !Acceptable(d, true)
  {
    FormErrorTags(d, true);
  }

  /**
   * The inputs the console tests use for each rule, and one extra example: a
   * name starting with a digit passes, since `upcase` leaves a digit unchanged.
   */
  lemma TestInputs()
    ensures NameFirstLetter in FormErrors(FormData("some_test_name", 72, "Denis", "Denis1993"), false)
    ensures FormErrors(FormData("Denis", 22, "Denis", "Denis1993"), false) == [AgeLength]
    ensures FormErrors(FormData("Denis", 91, "Denis", "Denis1993"), false) == [AgeLength]
    ensures FormErrors(FormData("Denis", 72, "EEE", "Denis1993"), false) == [LoginTooShort]
    ensures FormErrors(FormData("Denis", 72, "Denis1345", "Denis1993"), true) == [LoginExists]
    ensures FormErrors(FormData("Denis", 72, "Denis", ""), false) == [PasswordPresent, PasswordTooShort]
    ensures FormErrors(FormData("Denis", 72, "", "Denis1993"), false) == [LoginPresent, LoginTooShort]
    ensures FormErrors(FormData("Denis", 72, "EEEEEEEEEEEEEEEEEEEEE", "Denis1993"), false) == [LoginTooLong]
    ensures FormErrors(FormData("Denis", 72, "Denis", "EEEEE"), false) == [PasswordTooShort]
    ensures FormErrors(FormData("Denis", 72, "Denis", "EEEEEEEEEEEEEEEEEEEEEEEEEEEEEEE"), false) == [PasswordTooLong]
    ensures FormErrors(FormData("7up", 72, "Denis", "Denis1993"), false) == []
  {
  }

  /**
   * The form object. `account_exists?` asks the action collaborator; here the
   * collaborator is the set of logins already in use.
   */
  class AccountForm {
    const data: FormData
    const takenLogins: set<string>
    const errors: ValidationErrors

    constructor (takenLogins: set<string>, data: FormData)
      ensures this.data == data && this.takenLogins == takenLogins
      ensures fresh(errors) && errors.messages == []
    {
      this.data := data;
      this.takenLogins := takenLogins;
      errors := new ValidationErrors();
    }

    /** `account_exists?`: the collaborator's answer for the form's login. */
    predicate AccountExists()
    {
      data.login in takenLogins
    }

    method ValidateName()
      modifies errors
      ensures errors.messages == old(errors.messages) + NameErrors(data)
    {
      if NameInvalid(data) {
        errors.Push(NameFirstLetter);
      }
    }

    method ValidateAge()
      modifies errors
      ensures errors.messages == old(errors.messages) + AgeErrors(data)
    {
      if AgeInvalid(data) {
        errors.Push(AgeLength);
      }
    }

    method ValidateLogin()
      modifies errors
      ensures errors.messages == old(errors.messages) + LoginErrors(data)
    {
      if |data.login| == 0 {
        errors.Push(LoginPresent);
      }
      if LoginShort(data) {
        errors.Push(LoginTooShort);
      }
      if LoginLong(data) {
        errors.Push(LoginTooLong);
      }
    }

    method ValidateAccountsExists()
      modifies errors
      ensures errors.messages == old(errors.messages) + ExistsErrors(AccountExists())
    {
      if AccountExists() {
        errors.Push(LoginExists);
      }
    }

    method ValidatePassword()
      modifies errors
      ensures errors.messages == old(errors.messages) + PasswordErrors(data)
    {
      if |data.password| == 0 {
        errors.Push(PasswordPresent);
      }
      if PasswordShort(data) {
        errors.Push(PasswordTooShort);
      }
      if PasswordLong(data) {
        errors.Push(PasswordTooLong);
      }
    }

    /** `validate`: all five checks, unconditionally, in order. */
    method Validate()
      modifies errors
      ensures errors.messages == old(errors.messages) + FormErrors(data, AccountExists())
    {
      ghost var before := errors.messages;
      ValidateName();
      ValidateAge();
      ValidateLogin();
      ValidateAccountsExists();
      ValidatePassword();
      Concat5(before, NameErrors(data), AgeErrors(data), LoginErrors(data),
              ExistsErrors(AccountExists()), PasswordErrors(data));
    }

    /** `valid?`: one more pass, then whether the (never cleared) list is empty. */
    method IsValid() returns (ok: bool)
      modifies errors
      ensures errors.messages == old(errors.messages) + FormErrors(data, AccountExists())
      ensures ok <==> errors.messages == []
      ensures ok <==> old(errors.messages) == [] && Acceptable(data, AccountExists())
    {
      Validate();
      ok := errors.IsEmpty();
    }

    /**
     * `valid?` called `k` times on the same form, as a caller that asks again
     * would. Each call appends one more pass, so the list is never cleared,
     * and once an answer is false every later answer is false.
     */
    method IsValidRepeatedly(k: nat) returns (answers: seq<bool>)
      modifies errors
      ensures errors.messages == Validable.AfterCalls(old(errors.messages), FormErrors(data, AccountExists()), k)
      ensures |answers| == k
      ensures forall i :: 0 <= i < k ==>
        (answers[i] <==> Validable.AfterCalls(old(errors.messages), FormErrors(data, AccountExists()), i + 1) == [])
      ensures forall i, j :: 0 <= i <= j < k && !answers[i] ==> !answers[j]
    {
      ghost var start := errors.messages;
      ghost var pass := FormErrors(data, AccountExists());
      answers := [];
      var n := 0;
      while n < k
        invariant 0 <= n <= k && |answers| == n
        invariant errors.messages == Validable.AfterCalls(start, pass, n)
        invariant forall i :: 0 <= i < n ==> (answers[i] <==> Validable.AfterCalls(start, pass, i + 1) == [])
      {
        var ok := IsValid();
        answers := answers + [ok];
        n := n + 1;
      }
      forall i, j | 0 <= i <= j < k && !answers[i]
        ensures !answers[j]
      {
        Validable.OnceInvalidStaysInvalid(start, pass, i + 1, j + 1);
      }
    }
  }
}

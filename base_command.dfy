/**
 * `BaseCommand`: a menu command typed by the user, checked against the
 * command table of the concrete command class. Running a command calls the
 * console method the table names; here that is the lookup alone.
 */
module BaseCommand {
  import opened Wrappers
  import opened Validation

  /** The console methods a command table can name. */
  datatype Action =
    | ShowCards | CreateCard | DestroyCard | PutMoney
    | WithdrawMoney | SendMoney | DestroyAccount | StopLoop

  /** `commands[command]`: the action to run, `None` where the table has no such key. */
  function Dispatch(commands: map<string, Action>, command: string): (r: Option<Action>)
    ensures r.Some? <==> command in commands
    ensures r.Some? ==> r.value == commands[command]
  {
    if command in commands then Some(commands[command]) else None
  }

  /** The errors of one `validate` pass: the wrong-command error exactly when there is nothing to dispatch to. */
  function CommandErrors(commands: map<string, Action>, command: string): (r: seq<ErrorTag>)
    ensures r == [] || r == [WrongCommand]
    ensures r == [] <==> Dispatch(commands, command).Some?
  {
    AppendIf(command !in commands, WrongCommand)
  }

  class BaseCommand {
    /** The table `commands` of the concrete command class. */
    const commands: map<string, Action>
    /** `command.to_sym`; symbols are modelled by their names. */
    const command: string
    const errors: ValidationErrors

    constructor (commands: map<string, Action>, input: string)
      ensures this.commands == commands && command == input
      ensures fresh(errors) && errors.messages == []
    {
      this.commands := commands;
      command := input;
      errors := new ValidationErrors();
    }

    /**
     * `run(context)`: the action the context is asked to perform. The context
     * does not enter the choice; `None` is the failing call on a command the
     * table lacks.
     */
    function Run(): (r: Option<Action>)
      ensures r.Some? <==> CommandErrors(commands, command) == []
    {
      Dispatch(commands, command)
    }

    /** `validate`. */
    method Validate()
      modifies errors
      ensures errors.messages == old(errors.messages) + CommandErrors(commands, command)
    {
      if command !in commands {
        errors.Push(WrongCommand);
      }
    }

    /** `valid?`; a valid command has an action to run. */
    method IsValid() returns (ok: bool)
      modifies errors
      ensures errors.messages == old(errors.messages) + CommandErrors(commands, command)
      ensures ok <==> errors.messages == []
      ensures ok ==> Run().Some?
    {
      Validate();
      ok := errors.IsEmpty();
    }
  }
}

/** `MainCommand`: the main menu, a `BaseCommand` over a fixed table of eight commands. */
module MainCommand {
  import opened Wrappers
  import opened Validation
  import opened BaseCommand

  /** `commands`: eight keys, each naming its own console action. */
  function Commands(): (t: map<string, Action>)
    ensures t.Keys == {"SC", "CC", "DC", "PM", "WM", "SM", "DA", "exit"}
    ensures forall k1, k2 :: k1 in t && k2 in t && k1 != k2 ==> t[k1] != t[k2]
  {
    map[
      "SC" := ShowCards,
      "CC" := CreateCard,
      "DC" := DestroyCard,
      "PM" := PutMoney,
      "WM" := WithdrawMoney,
      "SM" := SendMoney,
      "DA" := DestroyAccount,
      "exit" := StopLoop]
  }

  /** The table has exactly eight entries. */
  lemma EightCommands()
    ensures |Commands().Keys| == 8
  {
    EightKeys();
  }

  lemma EightKeys()
    ensures |{"SC", "CC", "DC", "PM", "WM", "SM", "DA", "exit"}| == 8
  {
    SixKeys();
    var six: set<string> := {"SC", "CC", "DC", "PM", "WM", "SM"};
    assert "DA" !in six by { assert "DA"[1] == 'A' && "DC"[1] == 'C'; }
    assert "exit" !in six + {"DA"} by { assert |"exit"| == 4; }
    assert {"SC", "CC", "DC", "PM", "WM", "SM", "DA", "exit"} == six + {"DA"} + {"exit"};
  }

  lemma SixKeys()
    ensures |{"SC", "CC", "DC", "PM", "WM", "SM"}| == 6
  {
    ThreeKeys();
    var three: set<string> := {"SC", "CC", "DC"};
    assert "PM" !in three by { assert "PM"[0] == 'P'; }
    assert "WM" !in three + {"PM"} by { assert "WM"[0] == 'W'; }
    assert "SM" !in three + {"PM", "WM"} by { assert "SM"[1] == 'M' && "SC"[1] == 'C'; }
    assert {"SC", "CC", "DC", "PM", "WM", "SM"} == three + {"PM"} + {"WM"} + {"SM"};
  }

  lemma ThreeKeys()
    ensures |{"SC", "CC", "DC"}| == 3
  {
    assert "CC" !in {"SC"} by { assert "CC"[0] != "SC"[0]; }
    assert "DC" !in {"SC", "CC"} by { assert "DC"[0] != "SC"[0] && "DC"[0] != "CC"[0]; }
    assert {"SC", "CC", "DC"} == {"SC"} + {"CC"} + {"DC"};
  }

  /** A few of the fixed targets, as the console tests walk through them. */
  lemma CommandTargets()
    ensures Dispatch(Commands(), "SC") == Some(ShowCards)
    ensures Dispatch(Commands(), "DA") == Some(DestroyAccount)
    ensures Dispatch(Commands(), "exit") == Some(StopLoop)
  {
  }

  /** Lookup is case-sensitive and unknown words are rejected. */
  lemma UnknownCommandsRejected()
    ensures CommandErrors(Commands(), "sc") == [WrongCommand]
    ensures CommandErrors(Commands(), "EXIT") == [WrongCommand]
    ensures CommandErrors(Commands(), "undefined") == [WrongCommand]
  {
  }

  /** `MainCommand.new(command)`. */
  method New(input: string) returns (c: BaseCommand)
    ensures fresh(c) && fresh(c.errors) && c.errors.messages == []
    ensures c.commands == Commands() && c.command == input
  {
    c := new BaseCommand(Commands(), input);
  }
}

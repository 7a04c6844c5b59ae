/**
  The `say` command (src/commands/user/Say.ts): the arguments are joined
  with single spaces and sent back with their first character upper-cased.
 */
module Say {
  import opened Wrappers
  import opened Text

  /** `concatArgs[0]` is undefined on empty text, so `.toUpperCase()` throws. */
  datatype SayError = FirstCharacterUndefined

  /** `text[0].toUpperCase() + text.slice(1)`. */
  function Capitalize(text: string): (r: Result<string, SayError>)
    ensures r.Err? <==> text == ""
    ensures r.Ok? ==> |r.value| == |text|
    ensures r.Ok? ==> r.value[0] == UpperCase(text[0]) && r.value[1..] == text[1..]
  {
    if text == "" then Err(FirstCharacterUndefined)
    else Ok([UpperCase(text[0])] + text[1..])
  }

  /** The text `say` sends for the argument list `args`. */
  function Run(args: seq<string>): (r: Result<string, SayError>)
    ensures r.Ok? ==> |r.value| == TotalLength(args) + |args| - 1
    ensures r.Ok? ==> |r.value| == |Join(args, ' ')| > 0 && r.value[1..] == Join(args, ' ')[1..]
  {
    Capitalize(Join(args, ' '))
  }

  /** The command fails exactly when there is no argument or one empty argument. */
  lemma RunFailsIff(args: seq<string>)
    ensures Run(args).Err? <==> args == [] || args == [""]
  {
    JoinEmptyIff(args, ' ');
  }

  /**
    Read back word by word, the sent text is the argument list with only its
    first word capitalized: every later word is kept as typed.
   */
  lemma {:induction false} RunKeepsWords(args: seq<string>)
    requires |args| > 0 && args[0] != ""
    requires forall i :: 0 <= i < |args| ==> ' ' !in args[i]
    ensures Run(args).Ok?
    ensures Split(Run(args).value, ' ') == [Capitalize(args[0]).value] + args[1..]
  {
    RunFailsIff(args);
    var first := Capitalize(args[0]).value;
    var capitalized := [first] + args[1..];
    assert ' ' != UpperCase(args[0][0]) by {
      assert args[0][0] in args[0];
    }
    forall i | 0 <= i < |capitalized| ensures ' ' !in capitalized[i] {
      if i == 0 {
        assert first == [UpperCase(args[0][0])] + args[0][1..];
        assert forall c :: c in args[0][1..] ==> c in args[0];
      } else {
        assert capitalized[i] == args[i];
      }
    }
    if |args| == 1 {
      assert Join(args, ' ') == args[0];
      assert Join(capitalized, ' ') == first;
    } else {
      assert Join(args, ' ') == args[0] + [' '] + Join(args[1..], ' ');
      assert capitalized[1..] == args[1..];
      assert Join(capitalized, ' ') == first + [' '] + Join(args[1..], ' ');
      assert (args[0] + [' '] + Join(args[1..], ' '))[1..] == args[0][1..] + [' '] + Join(args[1..], ' ');
    }
    assert Run(args).value == Join(capitalized, ' ');
    SplitJoin(capitalized, ' ');
  }
}

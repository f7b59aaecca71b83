/** The operator console the bot runs after sending its REGISTER: it
    prompts, reads one command, and stops on "exit". The terminal is
    modelled as the sequence of commands read and the sequence of text
    fragments written. */
module Console {

  const Prompt: string := "sipbot>"
  const ExitNotice: string := "Exiting...\n"
  const UnknownNotice: string := "Unknown command\n"

  /** What one command writes after its prompt. */
  function Reply(command: string): (w: seq<string>)
    ensures command == "exit" ==> w == [ExitNotice]
    ensures command == "" ==> w == []
    ensures command != "exit" && command != "" ==> w == [UnknownNotice]
  {
    match command
    case "exit" => [ExitNotice]
    case "" => []
    case _ => [UnknownNotice]
  }

  /** Everything written while the given commands are read, in order. */
  function Transcript(commands: seq<string>): seq<string>
  {
    if commands == [] then [] else [Prompt] + Reply(commands[0]) + Transcript(commands[1..])
  }

  lemma {:induction false} TranscriptAppend(commands: seq<string>, command: string)
    ensures Transcript(commands + [command]) == Transcript(commands) + [Prompt] + Reply(command)
  {
    if commands == [] {
      assert [] + [command] == [command];
    } else {
      assert (commands + [command])[1..] == commands[1..] + [command];
      TranscriptAppend(commands[1..], command);
    }
  }

  /** The unknown-command notice is written exactly when some command read
      is neither "exit" nor blank. */
  lemma {:induction false} UnknownNoticeIff(commands: seq<string>)
    ensures UnknownNotice in Transcript(commands)
            <==> exists i :: 0 <= i < |commands| && commands[i] != "exit" && commands[i] != ""
  {
    if commands != [] {
      UnknownNoticeIff(commands[1..]);
      var rest := Transcript(commands[1..]);
      assert Transcript(commands) == [Prompt] + Reply(commands[0]) + rest;
      if exists i :: 0 <= i < |commands[1..]| && commands[1..][i] != "exit" && commands[1..][i] != "" {
        var i :| 0 <= i < |commands[1..]| && commands[1..][i] != "exit" && commands[1..][i] != "";
        assert commands[i + 1] == commands[1..][i];
      }
      if exists i :: 0 <= i < |commands| && commands[i] != "exit" && commands[i] != "" {
        var i :| 0 <= i < |commands| && commands[i] != "exit" && commands[i] != "";
        if i > 0 { assert commands[1..][i - 1] == commands[i]; }
      }
    }
  }

  /** One prompt is written for every command read. */
  lemma {:induction false} PromptPerCommand(commands: seq<string>)
    ensures multiset(Transcript(commands))[Prompt] == |commands|
  {
    if commands != [] {
      PromptPerCommand(commands[1..]);
      assert Transcript(commands) == [Prompt] + Reply(commands[0]) + Transcript(commands[1..]);
    }
  }

  /** The console loop over the commands available on input. It stops
      after the first "exit", with `alive` false, or when the input is
      used up, with `alive` still true. `consumed` is the number of
      commands read. */
  method CommandLoop(input: seq<string>) returns (alive: bool, consumed: nat, output: seq<string>)
    ensures consumed <= |input|
    ensures alive <==> "exit" !in input
    ensures alive ==> consumed == |input|
    ensures !alive ==> 0 < consumed && input[consumed - 1] == "exit" && "exit" !in input[..consumed - 1]
    ensures output == Transcript(input[..consumed])
  {
    alive := true;
    consumed := 0;
    output := [];
    while alive && consumed < |input|
      invariant consumed <= |input|
      invariant alive ==> "exit" !in input[..consumed]
      invariant !alive ==> 0 < consumed && input[consumed - 1] == "exit" && "exit" !in input[..consumed - 1]
      invariant output == Transcript(input[..consumed])
      decreases |input| - consumed
    {
      var command := input[consumed];
      TranscriptAppend(input[..consumed], command);
      assert input[..consumed + 1] == input[..consumed] + [command];
      consumed := consumed + 1;
      output := output + [Prompt];
      match command
      case "exit" =>
        alive := false;
        output := output + [ExitNotice];
      case "" =>
        continue;
      case _ =>
        output := output + [UnknownNotice];
    }
    assert alive ==> input[..consumed] == input;
    if !alive {
      assert input[consumed - 1] in input;
    }
  }
}

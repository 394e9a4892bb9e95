/** The `tritonserver` command-line builder of triton_testcontainer/command.py.
    A `TritonCommand` holds one command string that starts as the binary's
    name and grows by one space-prefixed option per setter call. */
module Command {
  import opened Outcomes
  import Strings

  /** `MODEL_CONTROL_MODE`: the only accepted model-control modes. */
  const ModelControlModes: seq<string> := ["none", "poll", "explicit"]

  /** How the ValueError message prints `MODEL_CONTROL_MODE` (a Python tuple). */
  const ModelControlModesRepr := "('none', 'poll', 'explicit')"

  const Binary := "tritonserver"

  /** The constructor's default `model_repository`. */
  const DefaultModelRepository := "/workspace"

  /** The runtime type of the value handed to `set_model_repository`: a
      string, a list (of strings), or anything else. */
  datatype RepositoryArg = Path(path: string) | Paths(paths: seq<string>) | Unsupported

  function RepositoryFlag(path: string): string
  {
    "--model-repository=" + path
  }

  /** The list comprehension of `set_model_repository`, one flag per path. */
  function RepositoryFlags(paths: seq<string>): seq<string>
  {
    seq(|paths|, i requires 0 <= i < |paths| => RepositoryFlag(paths[i]))
  }

  /** The option text `set_model_repository` appends, or the TypeError it
      raises for an argument that is neither a string nor a list. */
  function RepositoryOption(arg: RepositoryArg): (r: Result<string>)
    ensures r.Err? <==> arg.Unsupported?
    ensures r.Err? ==> r.error == TypeError("Unsupported")
    ensures arg.Path? || (arg.Paths? && arg.paths != []) ==> "--model-repository=" <= r.value
    ensures arg.Paths? && arg.paths == [] ==> r.value == ""
  {
    match arg
    case Path(p) => Ok(RepositoryFlag(p))
    case Paths(ps) => Ok(Strings.Join(RepositoryFlags(ps), ' '))
    case Unsupported => Err(TypeError("Unsupported"))
  }

  /** The message of the ValueError for a mode outside `MODEL_CONTROL_MODE`. */
  function InvalidModeMessage(mode: string): string
  {
    "Invalid model control mode: " + mode + ", allowed: " + ModelControlModesRepr
  }

  /** The option text `set_model_control_mode` appends, or its ValueError. */
  function ModeOption(mode: string): (r: Result<string>)
    ensures r.Ok? <==> mode in ModelControlModes
    ensures r.Ok? ==> ("--model-control-mode=" <= r.value && r.value[|"--model-control-mode="|..] == mode)
    ensures r.Err? ==> r.error == ValueError(InvalidModeMessage(mode))
  {
    if mode !in ModelControlModes then
      Err(ValueError(InvalidModeMessage(mode)))
    else
      Ok("--model-control-mode=" + mode)
  }

  /** What `_append_option` makes of the command. */
  function AppendedCommand(command: string, value: string): string
  {
    command + " " + value
  }

  /** The command a new `TritonCommand(model_repository)` holds, or the error
      its constructor raises. */
  function InitialCommand(arg: RepositoryArg): (r: Result<string>)
    ensures r.Ok? <==> !arg.Unsupported?
    ensures r.Ok? ==> Binary + " " <= r.value
    ensures r.Err? ==> r.error == TypeError("Unsupported")
  {
    match RepositoryOption(arg)
    case Ok(option) => Ok(AppendedCommand(Binary, option))
    case Err(e) => Err(e)
  }

  /** Independent reading of the repository flags: each path contributes
      its own ` --model-repository=<path>`, in list order. */
  function SpacedRepositoryFlags(paths: seq<string>): string
  {
    if paths == [] then "" else " " + RepositoryFlag(paths[0]) + SpacedRepositoryFlags(paths[1..])
  }

  class TritonCommand {
    /** The command built so far. The source's constructor assigns this
        string to `self._command`, while `build` and `_append_option` use
        `self.command`; this class keeps the single field the two were
        evidently meant to be (the code as written is `WrittenInit` below). */
    var command: string

    /** The first step of `__init__` only: the command is the bare binary
        name. No Python caller sees this state, because `__init__` always
        goes on to `set_model_repository`; `Create` is the model of
        `TritonCommand(model_repository)`. */
    constructor ()
      ensures command == Binary
    {
      command := Binary;
    }

    /** `TritonCommand(model_repository)`: a new command holding the binary
        name followed by the repository option, or the TypeError the
        constructor raises, in which case no command is handed out. */
    static method Create(modelRepository: RepositoryArg := Path(DefaultModelRepository)) returns (r: Result<TritonCommand>)
      ensures r.Err? <==> modelRepository.Unsupported?
      ensures r.Ok? ==> fresh(r.value) && InitialCommand(modelRepository) == Ok(r.value.command)
      ensures r.Err? ==> InitialCommand(modelRepository) == Err(r.error)
    {
      var c := new TritonCommand();
      var raised := c.SetModelRepository(modelRepository);
      if raised.Some? {
        return Err(raised.value);
      }
      return Ok(c);
    }

    /** `build`: the accumulated command, read without being changed. */
    method Build() returns (s: string)
      ensures s == command
    {
      s := command;
    }

    /** `_append_option`: the old command stays a prefix and exactly a space
        and the value follow it. */
    method AppendOption(value: string)
      modifies this
      ensures command == AppendedCommand(old(command), value)
    {
      command := command + " " + value;
    }

    /** `set_model_repository`: the option is formed before anything changes,
        so an unsupported argument leaves the command as it was. */
    method SetModelRepository(modelRepository: RepositoryArg) returns (raised: Option<Error>)
      modifies this
      ensures RepositoryOption(modelRepository).Ok? ==>
        raised == None && command == AppendedCommand(old(command), RepositoryOption(modelRepository).value)
      ensures RepositoryOption(modelRepository).Err? ==>
        raised == Some(RepositoryOption(modelRepository).error) && command == old(command)
    {
      var value: string;
      match modelRepository {
        case Path(p) =>
          value := RepositoryFlag(p);
        case Paths(ps) =>
          value := Strings.Join(RepositoryFlags(ps), ' ');
        case Unsupported =>
          return Some(TypeError("Unsupported"));
      }
      AppendOption(value);
      raised := None;
    }

    /** `set_model_control_mode`: a mode outside `MODEL_CONTROL_MODE` raises
        ValueError before the command is touched. */
    method SetModelControlMode(mode: string) returns (raised: Option<Error>)
      modifies this
      ensures raised.None? <==> mode in ModelControlModes
      ensures ModeOption(mode).Ok? ==>
        raised == None && command == AppendedCommand(old(command), ModeOption(mode).value)
      ensures ModeOption(mode).Err? ==>
        raised == Some(ModeOption(mode).error) && command == old(command)
    {
      if mode !in ModelControlModes {
        return Some(ValueError(InvalidModeMessage(mode)));
      }
      AppendOption("--model-control-mode=" + mode);
      raised := None;
    }
  }

  /** A client of the class: a list of two repositories becomes two flags in
      list order. */
  method ExampleRepositories() returns (c: TritonCommand)
    ensures fresh(c) && c.command == Binary + " " + RepositoryFlag("/a") + " " + RepositoryFlag("/b")
  {
    var flags := RepositoryFlags(["/a", "/b"]);
    assert flags == [RepositoryFlag("/a"), RepositoryFlag("/b")];
    Strings.JoinCons(flags[0], flags[1..], ' ');
    var r := TritonCommand.Create(Paths(["/a", "/b"]));
    c := r.value;
  }

  /** A client of the class: `TritonCommand()` with no argument serves the
      default repository. */
  method ExampleDefault() returns (c: TritonCommand)
    ensures fresh(c) && c.command == "tritonserver --model-repository=/workspace"
  {
    DefaultInitialCommand();
    var r := TritonCommand.Create();
    c := r.value;
  }

  /** A client of the class: a refused mode changes nothing, an accepted one
      adds its flag, and building twice gives the same text. */
  method ExampleModes(c: TritonCommand)
    modifies c
  {
    ghost var before := c.command;
    var bad := c.SetModelControlMode("manual");
    assert "manual" !in ModelControlModes;
    assert bad.Some? && c.command == before;
    var ok := c.SetModelControlMode("explicit");
    assert ok.None?;
    var s := c.Build();
    assert s == before + " --model-control-mode=explicit";
    var again := c.Build();
    assert again == s;
  }

  // ---------------------------------------------------------------------
  // Properties of the specification functions

  /** The mode option is formed exactly for the three allowed modes, and
      then names the mode. */
  lemma ModeOptionAccepts(mode: string)
    ensures ModeOption(mode).Ok? <==> (mode == "none" || mode == "poll" || mode == "explicit")
    ensures ModeOption(mode).Ok? ==> ModeOption(mode).value == "--model-control-mode=" + mode
    ensures ModeOption(mode).Err? ==> ModeOption(mode).error.ValueError?
  {
  }

  /** A string argument contributes exactly ` --model-repository=<s>`; a list
      contributes one such flag per element in list order, and an empty list
      contributes a lone space. */
  lemma {:induction false} RepositoryOptionAppends(arg: RepositoryArg)
    requires !arg.Unsupported?
    ensures RepositoryOption(arg).Ok?
    ensures arg.Path? ==> " " + RepositoryOption(arg).value == " --model-repository=" + arg.path
    ensures arg.Paths? && arg.paths == [] ==> " " + RepositoryOption(arg).value == " "
    ensures arg.Paths? && arg.paths != [] ==> " " + RepositoryOption(arg).value == SpacedRepositoryFlags(arg.paths)
  {
    if arg.Paths? && arg.paths != [] {
      JoinedFlagsAreSpaced(arg.paths);
    }
  }

  lemma {:induction false} JoinedFlagsAreSpaced(paths: seq<string>)
    requires paths != []
    ensures " " + Strings.Join(RepositoryFlags(paths), ' ') == SpacedRepositoryFlags(paths)
  {
    var flags := RepositoryFlags(paths);
    if |paths| == 1 {
      assert SpacedRepositoryFlags(paths[1..]) == "";
    } else {
      JoinedFlagsAreSpaced(paths[1..]);
      assert flags == [RepositoryFlag(paths[0])] + RepositoryFlags(paths[1..]);
      Strings.JoinCons(RepositoryFlag(paths[0]), RepositoryFlags(paths[1..]), ' ');
    }
  }

  /** Anything other than a string or a list is refused with TypeError, and
      only such an argument is. */
  lemma InitialCommandRefuses(arg: RepositoryArg)
    ensures InitialCommand(arg).Err? <==> arg.Unsupported?
    ensures arg.Unsupported? ==> InitialCommand(arg) == Err(TypeError("Unsupported"))
  {
  }

  /** A new command read back token by token: `tritonserver`, then one
      `--model-repository=` flag per path, in order (paths without spaces,
      as the unquoted command line needs). */
  lemma InitialCommandTokens(paths: seq<string>)
    requires paths != [] && Strings.FreeOf(paths, ' ')
    ensures InitialCommand(Paths(paths)).Ok?
    ensures Strings.Split(InitialCommand(Paths(paths)).value, ' ') == [Binary] + RepositoryFlags(paths)
  {
    var flags := RepositoryFlags(paths);
    assert Strings.FreeOf(flags, ' ') by {
      forall i | 0 <= i < |flags| ensures ' ' !in flags[i] {
        FlagFreeOfSpace(paths[i]);
      }
    }
    Strings.SplitJoin(flags, ' ');
    Strings.SplitFree(Binary, ' ');
    Strings.SplitConcat(Binary, Strings.Join(flags, ' '), ' ');
  }

  /** The default command is `tritonserver --model-repository=/workspace`. */
  lemma DefaultInitialCommand()
    ensures InitialCommand(Path(DefaultModelRepository)).Ok?
    ensures InitialCommand(Path(DefaultModelRepository)).value == "tritonserver --model-repository=/workspace"
  {
    var flag := RepositoryFlag(DefaultModelRepository);
    assert InitialCommand(Path(DefaultModelRepository)).value == Binary + " " + flag;
    assert flag == "--model-repository=/workspace";
  }

  /** Each option appended without spaces becomes exactly one more token at
      the end of the command; the earlier tokens are untouched. */
  lemma AppendedCommandAddsToken(command: string, value: string)
    requires ' ' !in value
    ensures Strings.Split(AppendedCommand(command, value), ' ') == Strings.Split(command, ' ') + [value]
  {
    assert AppendedCommand(command, value) == command + [' '] + value;
    Strings.SplitConcat(command, value, ' ');
    Strings.SplitFree(value, ' ');
  }

  lemma FlagFreeOfSpace(path: string)
    requires ' ' !in path
    ensures ' ' !in RepositoryFlag(path)
  {
    var flag := RepositoryFlag(path);
    forall k | 0 <= k < |flag| ensures flag[k] != ' ' {
      if k >= 19 {
        assert flag[k] == path[k - 19];
      }
    }
  }

  // ---------------------------------------------------------------------
  // The constructor as written

  /** The attributes an instance has as command.py is written: `_command`
      from the constructor, and `command`, which no code assigns before it is
      read (`None` = the attribute does not exist). */
  datatype WrittenInstance = WrittenInstance(underscoreCommand: string, command: Option<string>)

  /** The message of the AttributeError Python raises when `command` is read
      before anything assigned it. */
  const MissingCommandMessage := "'TritonCommand' object has no attribute 'command'"

  /** `self.command += f" {value}"` as written: reading a missing attribute
      raises AttributeError; otherwise `command` grows exactly as in the
      one-field model and `_command` is left alone. */
  function WrittenAppendOption(obj: WrittenInstance, value: string): (r: Result<WrittenInstance>)
    ensures r.Err? <==> obj.command.None?
    ensures r.Err? ==> r.error == AttributeError(MissingCommandMessage)
    ensures r.Ok? ==>
      (r.value.underscoreCommand == obj.underscoreCommand
       && r.value.command.Some? && obj.command.value < r.value.command.value
       && r.value.command == Some(AppendedCommand(obj.command.value, value)))
  {
    match obj.command
    case None => Err(AttributeError(MissingCommandMessage))
    case Some(c) => Ok(obj.(command := Some(c + " " + value)))
  }

  /** `__init__` as written: `_command` is set, then `set_model_repository`
      appends through `_append_option`. */
  function WrittenInit(arg: RepositoryArg): (r: Result<WrittenInstance>)
    ensures r.Err?
    ensures arg.Unsupported? ==> r.error == TypeError("Unsupported")
    ensures !arg.Unsupported? ==> r.error.AttributeError?
  {
    var obj := WrittenInstance(Binary, None);
    match RepositoryOption(arg)
    case Err(e) => Err(e)
    case Ok(option) => WrittenAppendOption(obj, option)
  }

  /** As written, no `TritonCommand` can be constructed: the constructor
      always raises, with AttributeError whenever the argument is accepted,
      whereas the intended command exists for every accepted argument. */
  lemma WrittenInitAlwaysRaises(arg: RepositoryArg)
    ensures WrittenInit(arg).Err?
    ensures !arg.Unsupported? ==> WrittenInit(arg).error.AttributeError? && InitialCommand(arg).Ok?
  {
  }
}

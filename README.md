# triton-testcontainer builders in Dafny

This project models the two text builders of `triton_testcontainer`:

- `TritonCommand` (`triton_testcontainer/command.py`) builds a `tritonserver` command line. It starts from the binary name and the model-repository flag(s) of its constructor argument. Each setter then validates its argument and appends one space-prefixed option to the single command string.
- `DockerfileBuilder` (`triton_testcontainer/dockerfile_builder.py`) keeps an ordered list of Dockerfile lines. The `syntax` and `escape` parser directives are inserted at the front. `append_user_instruction` and `from_` append at the back. `build` joins the lines with newlines and leaves them in place.

Both are classes whose methods change one field in place (`command: string`, `lines: seq<string>`). Each method's postcondition gives the new state as a specification function of the old state. That function is also where a raised exception (`TypeError`, `ValueError`, `SyntaxError`, `IndexError`, `AttributeError`) becomes an `Err` result. When a method raises, it reports the error through its `raised` out-parameter and leaves the state unchanged. The lemmas state the properties of the specification functions. Six of them read the produced text back with Python's `str.split` (`Strings.Split`) to show which tokens or lines a call adds, and where.

Files:

- `outcomes.dfy` holds the exception kinds and the `Result` and `Option` wrappers.
- `strings.dfy` holds `str.join` and `str.split` on one character, and proves that splitting a join gives the parts back.
- `command.dfy` models `command.py`.
- `dockerfile_builder.dfy` models `dockerfile_builder.py`.

The tests in `tests/test_command.py` call `TritonCommand` with keyword arguments such as `log_info=True` and `load_model=[...]`. `command.py` does not implement that interface, so the model follows `command.py`: a constructor taking the repository, plus two setters.

## Model

| member | source | states |
|---|---|---|
| `Command.TritonCommand.constructor` | triton_testcontainer/command.py:17 | the first step of `__init__` only: the command is exactly the binary name `tritonserver`; `Create` models the whole `TritonCommand(...)` call |
| `Command.TritonCommand.Create` | triton_testcontainer/command.py:13-18 | `TritonCommand(model_repository)` fails exactly for an argument that is neither a string nor a list; otherwise it holds `tritonserver`, a space and the repository option; on failure the error is the constructor's TypeError |
| `Command.TritonCommand.Build` | triton_testcontainer/command.py:20-21 | `build` returns the accumulated command and changes nothing, so repeated calls give identical strings |
| `Command.TritonCommand.AppendOption` | triton_testcontainer/command.py:23-24 | `_append_option(v)` keeps the old command as a prefix and adds exactly `" " + v` after it |
| `Command.TritonCommand.SetModelRepository` | triton_testcontainer/command.py:26-37 | appends the repository option of a string or list argument; any other argument raises TypeError("Unsupported") and leaves the command unchanged |
| `Command.TritonCommand.SetModelControlMode` | triton_testcontainer/command.py:39-42 | succeeds if and only if the mode is in `MODEL_CONTROL_MODE`, and then appends ` --model-control-mode=<mode>`; any other mode raises the ValueError and leaves the command unchanged |
| `Command.ModeOptionAccepts` | triton_testcontainer/command.py:6-42 | exactly `none`, `poll` and `explicit` are accepted; an accepted mode gives `--model-control-mode=<mode>`, and a refused one gives a ValueError |
| `Command.RepositoryOptionAppends` | triton_testcontainer/command.py:26-37 | a string adds exactly ` --model-repository=<s>`; a non-empty list adds one ` --model-repository=<path>` per element in list order; an empty list adds a lone space |
| `Command.JoinedFlagsAreSpaced` | triton_testcontainer/command.py:30-33 | the space-joined list comprehension, with the space `_append_option` puts in front of it, is the concatenation of one ` --model-repository=<path>` per path |
| `Command.InitialCommandRefuses` | triton_testcontainer/command.py:34-35 | the constructor raises exactly for an argument of another type, and the error is TypeError("Unsupported") |
| `Command.InitialCommandTokens` | triton_testcontainer/command.py:13-18 | split on spaces, a new command built from a non-empty list of space-free paths is `tritonserver`, then one `--model-repository=<path>` token per path, in order |
| `Command.DefaultInitialCommand` | triton_testcontainer/command.py:13-18 | the default constructor argument gives `tritonserver --model-repository=/workspace` |
| `Command.AppendedCommandAddsToken` | triton_testcontainer/command.py:23-24 | appending a space-free option adds exactly one token at the end of the command's tokens and leaves the earlier tokens as they were |
| `Command.RepositoryOption` | triton_testcontainer/command.py:26-35 | the repository option exists exactly for a string or a list; any other argument gives TypeError("Unsupported"); a string or non-empty list gives text starting with `--model-repository=`, and an empty list gives `""` |
| `Command.ModeOption` | triton_testcontainer/command.py:39-42 | the mode option exists exactly for a mode in `MODEL_CONTROL_MODE`, and is then `--model-control-mode=` followed by the mode; any other mode gives the ValueError `Invalid model control mode: <mode>, allowed: ('none', 'poll', 'explicit')` |
| `Command.InitialCommand` | triton_testcontainer/command.py:13-18 | the constructor succeeds exactly for a string or list argument, and the command then starts with `tritonserver ` (with a space); any other argument gives TypeError("Unsupported") |
| `Command.WrittenAppendOption` | triton_testcontainer/command.py:23-24 | as written, `_append_option` raises AttributeError (`'TritonCommand' object has no attribute 'command'`) exactly when the `command` attribute has never been assigned; otherwise `_command` is untouched and `command` gains exactly `" " + value`, as `AppendedCommand` gives in the one-field model |
| `Command.WrittenInit` | triton_testcontainer/command.py:13-18 | as written, `__init__` always raises: TypeError("Unsupported") for an argument of another type, and AttributeError for every accepted argument |
| `Command.WrittenInitAlwaysRaises` | triton_testcontainer/command.py:13-24 | with the two attribute names as written, every construction raises, with AttributeError whenever the argument is accepted; the one-field model has a command for every such argument |
| `Strings.SplitJoin` | triton_testcontainer/dockerfile_builder.py:24 | `sep.join` loses nothing: splitting the join of at least one separator-free part gives the parts back |
| `Dockerfile.SyntaxLines` | triton_testcontainer/dockerfile_builder.py:33-34 | as written, `syntax(ref)` gives one more line: line 0 is the bare `ref`, followed by the old lines |
| `Dockerfile.IntendedSyntaxLines` | triton_testcontainer/dockerfile_builder.py:27-31 | as documented, `syntax(ref)` gives one more line: line 0 is `# syntax=<ref>`, followed by the old lines |
| `Dockerfile.Insert` | triton_testcontainer/dockerfile_builder.py:54 | `list.insert(i, x)` puts `x` at index `i`, and taking it out gives the old list back |
| `Dockerfile.EscapeLines` | triton_testcontainer/dockerfile_builder.py:48-54 | as written, `escape` fails exactly for a character on an empty list, with IndexError; `None` keeps the lines; on a non-empty list a character puts `# escape=<c>` at index 1 after a leading `# syntax=` line and at index 0 otherwise, and taking that line out gives the old lines back in order |
| `Dockerfile.IntendedEscapeLines` | triton_testcontainer/dockerfile_builder.py:37-47 | as documented, `escape(None)` keeps the lines; on an empty list a character gives the single line `# escape=<c>`; on a non-empty list it puts that line at the same index as the written form, and taking it out gives the old lines back in order |
| `Dockerfile.FromLine` | triton_testcontainer/dockerfile_builder.py:94-111 | the FROM line fails exactly when there is no user directive and no image, with the SyntaxError and its message; otherwise the line starts with `FROM ` |
| `Dockerfile.DockerfileBuilder.constructor` | triton_testcontainer/dockerfile_builder.py:20-21 | a new builder holds no lines |
| `Dockerfile.DockerfileBuilder.Build` | triton_testcontainer/dockerfile_builder.py:23-24 | `build` returns the lines joined by newlines and changes nothing, so it is idempotent; a new builder builds to `""` |
| `Dockerfile.DockerfileBuilder.Syntax` | triton_testcontainer/dockerfile_builder.py:26-35 | as written, `syntax(ref)` inserts the bare `ref` at index 0, ahead of all existing lines |
| `Dockerfile.DockerfileBuilder.IntendedSyntax` | triton_testcontainer/dockerfile_builder.py:26-35 | `syntax(ref)` inserts `# syntax=<ref>` at index 0, ahead of all existing lines, as its docstring shows |
| `Dockerfile.DockerfileBuilder.Escape` | triton_testcontainer/dockerfile_builder.py:37-56 | as written: `None` changes nothing; on an empty list it raises IndexError with the lines unchanged; otherwise it inserts `# escape=<c>` at index 1 after a leading `# syntax=` line and at index 0 otherwise |
| `Dockerfile.DockerfileBuilder.IntendedEscape` | triton_testcontainer/dockerfile_builder.py:37-56 | as its docstring shows: it behaves as written, except that on an empty list the directive becomes the only line |
| `Dockerfile.AppendedLines` | triton_testcontainer/dockerfile_builder.py:66 | `list.append(x)` keeps every old line in place and adds `x` as the one new last line |
| `Dockerfile.DockerfileBuilder.AppendUserInstruction` | triton_testcontainer/dockerfile_builder.py:58-68 | the instruction, verbatim, becomes the last line and nothing else changes |
| `Dockerfile.DockerfileBuilder.From` | triton_testcontainer/dockerfile_builder.py:79-115 | `from_` builds its FROM line step by step from the parts; it appends that line, or raises SyntaxError for a missing image with the lines unchanged |
| `Dockerfile.FromPartsJoin` | triton_testcontainer/dockerfile_builder.py:98-111 | the list `from_` collects (platform flag, image, `AS <name>`), joined by spaces after `FROM `, is `FROM [--platform=<p> ]<image>[ AS <name>]` |
| `Dockerfile.FromUserDirectiveWins` | triton_testcontainer/dockerfile_builder.py:94-96 | a non-empty user directive gives `FROM <directive>`, whatever the image, platform and stage name |
| `Dockerfile.FromNeedsImage` | triton_testcontainer/dockerfile_builder.py:103-104 | without a user directive, `from_` fails if and only if the image is empty, with the SyntaxError and its message |
| `Dockerfile.FromLineWords` | triton_testcontainer/dockerfile_builder.py:98-113 | split on spaces, a structured FROM line is `FROM`, the platform flag if given, the image, then `AS` and the name if given, in exactly that order |
| `Dockerfile.BuildReadsBack` | triton_testcontainer/dockerfile_builder.py:23-24 | split on newlines, the built text gives back exactly the lines, if there is at least one and none contains a newline |
| `Dockerfile.AppendAddsLastLine` | triton_testcontainer/dockerfile_builder.py:66 | on a non-empty builder, appending adds exactly one line at the end of the built text, and every earlier line is unchanged |
| `Dockerfile.SyntaxShiftsLines` | triton_testcontainer/dockerfile_builder.py:33-35 | in both forms, `syntax` inserts exactly one line at index 0 and shifts every existing line down by one |
| `Dockerfile.SyntaxDirectiveIsFirstLine` | triton_testcontainer/dockerfile_builder.py:26-35 | however late it is added, the syntax directive is line 0 of the built text, and the earlier lines follow it unchanged |
| `Dockerfile.EscapeInsertsOneLine` | triton_testcontainer/dockerfile_builder.py:51-54 | on a non-empty list, `escape(c)` inserts `# escape=<c>` at index 1 exactly when line 0 starts with `# syntax=`, and at index 0 otherwise; removing that line gives back the old lines in order |
| `Dockerfile.EscapeNoneKeepsLines` | triton_testcontainer/dockerfile_builder.py:48-49 | `escape(None)` returns with the lines unchanged |
| `Dockerfile.SyntaxThenEscapeAsWritten` | triton_testcontainer/dockerfile_builder.py:33-34 | as written, `syntax().escape("\\")` gives the escape directive followed by the bare `docker/dockerfile:1`, not the documented two directives |
| `Dockerfile.SyntaxThenEscapeIntended` | triton_testcontainer/dockerfile_builder.py:44-45 | with the intended `syntax`, the escape directive lands right after the syntax directive, whatever lines were there before |
| `Dockerfile.EscapeOnEmptyAsWritten` | triton_testcontainer/dockerfile_builder.py:51 | as written, `escape(c)` on a new builder raises IndexError |
| `Dockerfile.EscapeOnEmptyIntended` | triton_testcontainer/dockerfile_builder.py:40-43 | intended: `escape(c)` on a new builder gives the single line `# escape=<c>` |
| `Dockerfile.IntendedEscapeAgrees` | triton_testcontainer/dockerfile_builder.py:48-54 | wherever the written `escape` does not raise, the intended one gives the same lines |

## Findings

| source | as written | input that shows it | evidently intended | confidence | as-written member | corrected member |
|---|---|---|---|---|---|---|
| triton_testcontainer/command.py:17 | `__init__` assigns `self._command`, but `_append_option` (line 24) and `build` (line 21) use `self.command`, so the constructor's own `set_model_repository` call raises AttributeError | `TritonCommand("/workspace")` | one command attribute, giving `tritonserver --model-repository=/workspace` | high (not executed) | `Command.WrittenInitAlwaysRaises` | `Command.DefaultInitialCommand` |
| triton_testcontainer/dockerfile_builder.py:34 | `syntax` formats `# syntax=<ref>` but inserts the bare `ref` | `DockerfileBuilder().syntax().escape("\\")` | `# syntax=docker/dockerfile:1`, then `# escape=\` (docstring, lines 29-30 and 44-45) | high (not executed) | `Dockerfile.SyntaxThenEscapeAsWritten` | `Dockerfile.SyntaxThenEscapeIntended` |
| triton_testcontainer/dockerfile_builder.py:51 | `escape` reads `self._dockerfile[0]` with no check, so it raises IndexError on an empty list | `DockerfileBuilder().escape("\\")` | the single line `# escape=\` (docstring, lines 40-43) | high (not executed) | `Dockerfile.EscapeOnEmptyAsWritten` | `Dockerfile.EscapeOnEmptyIntended` |

Both forms of each defect are in the model. `Command.TritonCommand` is the one-field class. `Dockerfile.DockerfileBuilder` has `Syntax` and `Escape` as written, and `IntendedSyntax` and `IntendedEscape` corrected.

## Left out

- `triton_testcontainer/image_builder.py` is not part of this model. It wraps the docker SDK's image build and removal, and its results come from the container engine.
- `triton_testcontainer/triton.py` is not part of this model. Its parts are:
  - the container wrapper;
  - its readiness probe, a time-bounded retry of a network call;
  - `get_url`, which depends on host and port values reported by the engine;
  - a default command that calls `TritonCommand` with a keyword the shown constructor does not accept.
- The instruction stubs of `DockerfileBuilder` (`add`, `arg`, `cmd`, `copy`, `healthcheck`, …) have `...` as their bodies, so they have no behaviour to model.
- The keyword-argument API in `tests/test_command.py` is out: boolean `=1` flags, bare `--disable-auto-complete-config`, integer options. `command.py` does not implement it.
- Fluent chaining is out. Every modelled `DockerfileBuilder` method except `build` returns `self` (dockerfile_builder.py:35, 49, 56, 68, 96, 115). The model's methods act on the same object and do not return it. `TritonCommand`'s setters return None, as the model's methods do.
- A non-string element of a repository list is out. Python formats such an element with `str()`; the model takes lists of strings.
- `RepositoryArg.Unsupported` stands for every runtime type other than `str` and `list`.
- The `escape` character is any string in the model. The `Literal` annotation on it is not enforced at run time.
- `Command.InitialCommandTokens`, `Command.AppendedCommandAddsToken`, `Dockerfile.FromLineWords`, `Dockerfile.BuildReadsBack`, `Dockerfile.AppendAddsLastLine` and `Dockerfile.SyntaxDirectiveIsFirstLine` are stated only for parts that contain no separator. The builders do no quoting or escaping, so a part with a space or newline in it splits differently.
- `dockerfile_builder.py:111` puts double quotes inside a double-quoted f-string. Only Python 3.12 and later parse that, so on earlier versions the module does not import. The model assumes an interpreter that accepts it.
- The docstring example at `dockerfile_builder.py:13` calls `.from(...)`, which is not valid Python. The model follows the method `from_`.
- Logging setup and the re-exports in `__init__.py` are out.

# this: a verified model of the project-type engine

`this` is a command-line tool that works out what kind of software project
the current directory belongs to, then runs that project type's usual
commands for `build`, `test`, `run`, `lint`, `check` and `deploy`. It knows
Autotools, Meson, CMake, Make, Cargo, .NET, Gradle, Node.js (npm or yarn),
Python (Pipenv), Laravel and Ansible. The repository also keeps an older copy
of the engine, `dothingy`.

This Dafny project models that engine. It covers:

- how the engine walks up from the working directory to find a project root;
- the order in which project types are tried;
- how each project type turns an action into subprocess calls;
- how `cmd` echoes, resolves and runs a command;
- how a non-zero return code ends the program, or is held back inside
  `delayed_exit`;
- the helper functions in `util.py` and `env.py`, and the tmux pane runner.

## How the model is built

- **The process, as a value.** `Process.Proc` holds:
  - the files that exist, as a sequence of paths in listing order;
  - the log of commands run, with their return codes;
  - the lines printed to the console;
  - the thread-local `exit_code` attribute;
  - whether the program is still running, has called `sys.exit(code)`, or
    has died of an uncaught exception;
  - the commands captured while a tmux pane patches `Project.cmd`.

  An ended process stays ended: every step leaves it unchanged.
- **The outside world, as a parameter.** `Process.Host` supplies what the
  program only observes:
  - the reply of every subprocess;
  - `shutil.which`, `os.name`, `os.environ`, `os.getcwd()` and
    `os.path.getmtime`;
  - the script names of a `package.json`;
  - the names the program uses but never defines.
- **The state that changes, as classes.**
  - `Engine.Runtime` holds the process state as fields. Each of its methods
    makes one change and states the new state as a function of the old one.
  - Each project type is a class. Its fields are fixed in its constructor.
    Its action methods are proved against specification functions, and the
    lemmas beside those functions state what each action does: which
    commands it runs, in what order, and how it fails.
- **The two engines share one `Runtime`.** Its `legacy` flag selects the
  older engine's rules:
  - commands are not stripped;
  - `delayed_exit` does not nest.

## Model

| member | source | states |
|---|---|---|
| Text.JoinSnoc | thiscli/util.py:51-59 | joining one more part appends the separator and that part |
| Text.NotContainsWithoutFirst | thiscli/project/python.py:58 | a string lacking the first character of a non-empty needle does not contain it |
| Text.Strip | thiscli/project/__init__.py:31-32 | `str.strip`: the result is no longer than the input and, when non-empty, neither starts nor ends with white space, which is every character `str.isspace` accepts, the non-ASCII separators included |
| Text.StripShape | thiscli/project/__init__.py:31-32 | the stripped string is a slice of the input with only white space cut off before and after it |
| Text.StripKeeps | thiscli/project/__init__.py:31-32 | a string that neither starts nor ends with white space is left as it is |
| Text.StripTrailingBlank | thiscli/project/__init__.py:31-32 | a command written with a trailing space is run without it |
| Text.StripTrailingSpace | thiscli/project/__init__.py:31-32 | one trailing white-space character of any kind `str.isspace` accepts, the non-ASCII ones included, is cut from a command |
| Text.StripNoBreakSpace | thiscli/project/__init__.py:31-32 | a command ending in a no-break space is run without it |
| Text.StripIdempotent | thiscli/project/__init__.py:31-32 | stripping twice is stripping once |
| Text.SplitPath | thiscli/project/__init__.py:51-55 | a relative path splits into at least one slash-free component, and joining them with `/` gives the path back |
| Text.SplitPathInjective | thiscli/project/__init__.py:51-55 | different relative paths name different components |
| Text.SplitPathPlain | thiscli/project/__init__.py:51-55 | a name without a slash is a single component |
| Text.SplitPathTwo | thiscli/project/__init__.py:51-55 | `a/b` is the two components `a` and `b` |
| Text.LowerAll | thiscli/project/gradle.py:28 | lower-cases every character and keeps the length |
| Text.Capitalize | thiscli/project/gradle.py:28 | `str.capitalize`: first character upper case, the rest lower case, same length |
| Text.FormatNoFields | thiscli/util.py:40-44 | `str.format` leaves a template with no `{}` field unchanged |
| Text.FormatOneField | thiscli/util.py:40-44 | `str.format` puts the one argument where the one `{}` field is |
| Process.BelowInjective | thiscli/project/__init__.py:51-52 | `self.path(a)` and `self.path(b)` differ when `a` and `b` do |
| Process.ListDir | tests/__init__.py:12-21 | `os.listdir(d)` lists exactly the names `n` for which `d/n` exists |
| Process.MakeDirs | thiscli/project/meson.py:17 | `os.makedirs` keeps every existing path and adds every prefix of the new one, and nothing else |
| Process.Halt | thiscli/util.py:35-37 | a running process ends with exactly the status given and nothing else changes; a process that has already ended is left as it was |
| Process.Print | thiscli/project/__init__.py:103 | only the console changes: a running process gets exactly one more line, the one printed, after everything printed before; an ended process prints nothing |
| Util.LevelsShape | thiscli/util.py:7-22 | `walk_up` yields one level per directory from the start up to `/`, each with its listing |
| Util.WalkUpOrder | thiscli/util.py:13-22 | the walk starts at the start directory, ends at `/`, and each step goes to the parent, which is strictly shorter |
| Util.WalkUp | thiscli/util.py:7-22 | the loop collects exactly the levels the walk yields; the same member models the older copy at dothingy/util.py:5-20 |
| Util.NeedsUpdate | thiscli/util.py:29-32 | true when the destination is missing; otherwise whether the source is newer; a missing source with an existing destination raises |
| Util.FailAndFatalExitOne | thiscli/util.py:35-44 | for any message, `fail` prints it and `fatal` without arguments prints it after `ERROR: `; both exit 1 and change nothing else; arguments to a message without a field change nothing |
| Util.FatalOneField | thiscli/util.py:40-44 | `fatal` with one argument formats it into the message's one field, prints that after `ERROR: `, exits 1 and changes nothing else |
| Util.OxfordJoin | thiscli/util.py:51-59 | empty gives `""`, one phrase gives itself, two are joined by ` and ` |
| Util.OxfordComma | thiscli/util.py:58-59 | three or more phrases are joined with `, ` and the last gets `and ` |
| Engine.MaybeQuoteArg | thiscli/project/__init__.py:137-142 | an argument without a space is unchanged; otherwise it is put in double quotes, or in single quotes when it holds a double quote |
| Engine.MaybeQuoteArgRoundTrip | thiscli/project/__init__.py:137-142 | a quoted argument is the argument between two equal quote characters, which are double quotes exactly when the argument has none; the same member models the older copy at dothingy/project/__init__.py:127-132 |
| Engine.QuoteAll | thiscli/project/__init__.py:127-128 | each argument of a list command is quoted on its own, in order |
| Engine.EnvAssignments | thiscli/project/__init__.py:129-131 | each environment override is echoed as `KEY=value`, in order |
| Engine.EchoLineOrder | thiscli/project/__init__.py:126-134 | the echo line is `$ `, then `cd dir && ` when a directory is given, then the assignments when an environment is given, then the command; the same member models the older copy at dothingy/project/__init__.py:116-124 |
| Engine.EchoPlainArgs | thiscli/project/__init__.py:126-128 | arguments without spaces are echoed as they are, joined by spaces |
| Engine.OverlayWins | thiscli/project/__init__.py:39-40 | `dict(os.environ, **env)`: an override is present when given, its last value wins, and other variables keep their inherited values |
| Engine.Settle | thiscli/project/__init__.py:44-49 | a zero code changes nothing; otherwise the code is recorded if the delayed code is still 0, dropped if an earlier failure is recorded, and ends the process when no exit is delayed |
| Engine.CmdStepBookkeeping | thiscli/project/__init__.py:30-49 | one `cmd` logs exactly one invocation, and its code decides the delayed code and status as in `Settle` |
| Engine.CmdStepEffect | thiscli/project/__init__.py:33-43 | an echoed `cmd` prints its echo line, logs the invocation with the host's code, and the files become the host's reply |
| Engine.CmdAllAppend | thiscli/project/__init__.py:30-49 | running two command lists one after the other is running their concatenation |
| Engine.CmdAllHalted | thiscli/project/__init__.py:44-49 | after the process has ended no further command runs |
| Engine.Codes | thiscli/project/__init__.py:43-44 | the return codes of the log, in order |
| Engine.FirstNonZero | thiscli/project/__init__.py:45-47 | zero exactly when every code is zero; otherwise the first non-zero code |
| Engine.CmdAllInScope | thiscli/project/__init__.py:45-47 | inside `delayed_exit` every command runs, and the delayed code becomes the first failure |
| Engine.CmdAllInScopeOrder | thiscli/project/__init__.py:30-47 | inside `delayed_exit` the log gains exactly one entry per command, each with that command's invocation, in order |
| Engine.CmdStepKeepsFiles | thiscli/project/__init__.py:43 | when the host's commands leave the files alone, so does `cmd`, whatever the command returns |
| Engine.CmdAllOutsideScope | thiscli/project/__init__.py:48-49 | outside `delayed_exit` commands run until the first failure, which ends the process with that code |
| Engine.CmdAllOne | thiscli/project/__init__.py:30-49 | a list of one command is that command |
| Engine.CmdAllCons | thiscli/project/__init__.py:30-49 | a list runs its first command, then the rest |
| Engine.CmdAllTwo | thiscli/project/__init__.py:30-49 | a list of two commands runs them in order |
| Engine.CmdAllSnoc | thiscli/project/__init__.py:30-49 | a list runs all but its last command, then the last |
| Engine.QuietLog | thiscli/project/__init__.py:43 | the log a host that always answers 0 produces: one entry per call, in order |
| Engine.CmdStepQuiet | thiscli/project/__init__.py:43-44 | with such a host a command adds its log entry and anything it printed, and nothing else changes |
| Engine.CmdAllQuiet | thiscli/project/__init__.py:43-44 | with such a host a command list adds exactly its log entries |
| Engine.Commands | thiscli/project/__init__.py:43 | the commands of a log, in order |
| Engine.Lines | thiscli/project/__init__.py:31-32 | the commands a call list runs, with string commands stripped |
| Engine.QuietCommands | tests/__init__.py:28-40 | with such a host, the commands run are the calls' commands in order, which is what the tests compare |
| Engine.CaptureRecords | thiscli/tmux.py:24-34 | while a pane patches `cmd`, a call runs nothing and is recorded as its formatted command |
| Engine.EnterRules | thiscli/project/__init__.py:14-19 | entering `delayed_exit` sets the code to 0 unless an outer scope exists; the older engine always sets it |
| Engine.LeaveRules | thiscli/project/__init__.py:19-23 | an inner scope leaves nothing to do; the outer one exits with a non-zero code or removes the attribute |
| Engine.ScopeReportsFirstFailure | thiscli/project/__init__.py:14-23 | a scope runs every command, logged in order after what ran before, and exits with the first failing code, or ends cleanly with no stored code when all succeed |
| Engine.ScopedPairFirst | thiscli/project/__init__.py:14-23 | in a scope the first two commands are logged first and in order, whatever runs after them and however the scope closes |
| Engine.QuietPair | thiscli/project/__init__.py:30-44 | on a host where every command succeeds and touches nothing, two commands in a row log their stripped command lines, in order |
| Engine.LegacyScopesDoNotNest | dothingy/project/__init__.py:14-20 | the older scope resets an outer code to 0, and leaving two nested scopes removes the attribute twice, an AttributeError; the newer scope keeps the outer code |
| Engine.Runtime.constructor | thiscli/project/__init__.py:11 | the program starts running, with no delayed code, no log and no output |
| Engine.Runtime.Cmd | thiscli/project/__init__.py:30-49 | `Project.cmd`: the new state is one command step of the old; with the `legacy` flag it models the older `cmd` at dothingy/project/__init__.py:27-44, which does not strip |
| Engine.Runtime.EnterDelayed | thiscli/project/__init__.py:14-19 | entering `delayed_exit`, and whether a scope was already open |
| Engine.Runtime.LeaveDelayed | thiscli/project/__init__.py:20-23 | leaving `delayed_exit` |
| Engine.Runtime.Fail | thiscli/util.py:35-37 | `fail` |
| Engine.Runtime.Fatal | thiscli/util.py:40-44 | `fatal` |
| Engine.Runtime.Warn | thiscli/util.py:47-48 | `warn` prints the message after `WARNING: ` |
| Engine.Runtime.Print | thiscli/project/__init__.py:103 | `print` |
| Engine.Runtime.Crash | thiscli/project/nodejs.py:37-38 | an uncaught exception ends the process |
| Engine.Runtime.Exit | thiscli/project/__init__.py:104 | `sys.exit` |
| Engine.Runtime.MakeDirs | thiscli/project/meson.py:17 | `os.makedirs` |
| Engine.Runtime.Spawn | thiscli/tmux.py:41-45 | a subprocess that is started and not waited for |
| Engine.Runtime.OpenCapture | thiscli/tmux.py:24-32 | a pane starts patching `cmd` |
| Engine.Runtime.CloseCapture | thiscli/tmux.py:32-34 | a pane stops patching `cmd` and hands back what it recorded |
| Engine.Runtime.DontKnowHow | thiscli/project/__init__.py:60-75 | a base-class action prints `Sorry! I don't know how to <verb> your project` and exits 1; the same member models the older copy at dothingy/project/__init__.py:55-69 |
| Engine.ContainingNearest | thiscli/project/__init__.py:108-115 | the root found is the nearest level holding a marker with no `.git` below it; a found root is such a level |
| Engine.FindContaining | thiscli/project/__init__.py:108-115 | the loop returns exactly that root, or nothing; the same member models the older copy at dothingy/project/__init__.py:98-105 |
| EnvNames.EnvNamesDistinct | thiscli/env.py:6-14 | neither `STANDARD_ENV_NAMES` nor `SHORT_ENV_NAMES` repeats a name |
| EnvNames.ShortListMeaning | thiscli/env.py:14 | a name is in `SHORT_ENV_NAMES` exactly when `get_env` knows it and `short_env_name` leaves it unchanged |
| EnvNames.StandardListMeaning | thiscli/env.py:13 | a name is in `STANDARD_ENV_NAMES` exactly when `get_env` finds an entry whose canonical name it is |
| EnvNames.StandardShortensInPlace | thiscli/env.py:13-14 | the two lists have the same length, and `short_env_name` maps each canonical name to the short name at the same position |
| EnvNames.FirstNamed | thiscli/env.py:17-21 | the loop stops at the first entry matching by name, short name or alias, and every entry before it fails to match |
| EnvNames.GetEnv | thiscli/env.py:17-21 | an entry is found exactly when some entry matches the name |
| EnvNames.ShortNamesOfDevelopment | thiscli/env.py:24-26 | `development` and `dev` shorten to `dev` |
| EnvNames.ShortNamesOfStaging | thiscli/env.py:24-26 | `staging` and `stage` shorten to `staging` |
| EnvNames.ShortNamesOfProduction | thiscli/env.py:24-26 | `production` and `prod` shorten to `prod` |
| EnvNames.ShortNamesOfTesting | thiscli/env.py:24-26 | `testing`, `test` and `qa` shorten to `test` |
| EnvNames.ShortNameOfUnknown | thiscli/env.py:24-26 | an unknown name is kept as it is |
| EnvNames.ShortEnvNameIdempotent | thiscli/env.py:24-26 | shortening a short name changes nothing |
| EnvNames.AllEnvNamesKnown | thiscli/env.py:29-32 | a known name gives the entry's name, short name and aliases, which include the name given |
| EnvNames.AllEnvNamesUnknown | thiscli/env.py:33-34 | an unknown name gives `set(name)`, the set of its characters |
| EnvNames.AllEnvNamesOfUnknownWord | thiscli/env.py:33-34 | `foo` gives `{"f", "o"}` |
| EnvNames.EnvNameLists | thiscli/env.py:6-14 | the two name lists as the table defines them |
| Autotools.EnsureMakefileSteps | thiscli/project/autotools.py:11-23 | nothing runs when a Makefile exists; otherwise `./configure` runs last, preceded only when `configure` is missing by `./bootstrap`, `./autogen.sh` or `autoreconf`, whichever exists first |
| Autotools.Autotools.constructor | thiscli/project/autotools.py:7-9 | the project is rooted where `configure.ac` was found |
| Autotools.Autotools.EnsureMakefile | thiscli/project/autotools.py:11-23 | runs exactly the plan above |
| Autotools.Autotools.Build | thiscli/project/autotools.py:25-27 | the plan, then `make` |
| Autotools.Autotools.Test | thiscli/project/autotools.py:29-31 | the plan, then `make check` |
| Cargo.Cargo.constructor | thiscli/project/cargo.py:5-7 | the project is rooted where `Cargo.toml` was found |
| Cargo.Cargo.Build | thiscli/project/cargo.py:9-10 | one command, `cargo build` |
| Cargo.Cargo.Test | thiscli/project/cargo.py:12-13 | one command, `cargo test` |
| CMake.ConfiguredTarget | thiscli/project/cmake.py:22-41 | with a build directory already configured, nothing is set up; a Makefile takes `make <target>` in `build`, else `ninja -C build <target>` |
| CMake.FreshTarget | thiscli/project/cmake.py:22-41 | an unconfigured project first runs the cmake set-up in `build`; if that fails the process ends with its code, and if it leaves no build file the target fails with exit 1 |
| CMake.BuildLineIsStripped | thiscli/project/cmake.py:34-44 | the build target `make ` runs as `make` once stripped |
| CMake.CMake.constructor | thiscli/project/cmake.py:10-16 | the description names make or ninja by the build file present |
| CMake.CMake.EnsureBuilddir | thiscli/project/cmake.py:22-32 | `ensure_builddir` as one step: the generator is Ninja when `ninja` is on PATH |
| CMake.CMake.Target | thiscli/project/cmake.py:34-41 | `target` as one step |
| CMake.CMake.Build | thiscli/project/cmake.py:43-44 | the empty target |
| CMake.CMake.Test | thiscli/project/cmake.py:46-47 | the `test` target |
| Dotnet.MarkerIsLiteral | thiscli/project/dotnet.py:8-10 | only an entry literally named `*.csproj` is a marker, so `App.csproj` is not |
| Dotnet.ReleaseOnlyForReleaseEnvs | thiscli/project/dotnet.py:12-25 | build and run add `-c release` exactly for a release environment |
| Dotnet.Dotnet.constructor | thiscli/project/dotnet.py:8-10 | the project is rooted where the marker was found |
| Dotnet.Dotnet.Build | thiscli/project/dotnet.py:12-16 | one `dotnet build` command |
| Dotnet.Dotnet.Test | thiscli/project/dotnet.py:18-19 | one command, `dotnet test` |
| Dotnet.Dotnet.Run | thiscli/project/dotnet.py:21-25 | one `dotnet run` command |
| Gradle.GradleCmdChoice | thiscli/project/gradle.py:10-19 | `./gradlew.bat` exactly on Windows with that file, `./gradlew` exactly elsewhere with that file, else `gradle` |
| Gradle.TaskNaming | thiscli/project/gradle.py:25-30 | without a (non-empty) environment the task is unchanged; with one the task gets the capitalised release-or-debug name, `Release` for a release environment |
| Gradle.Gradle.constructor | thiscli/project/gradle.py:10-19 | the command is chosen as above from the files present |
| Gradle.Gradle.CheckStep | thiscli/project/gradle.py:38-42 | whatever the stored code, a running process issues exactly one `<gradle> check`, logged after what ran before; an ended process is unchanged |
| Gradle.Gradle.CheckOutcome | thiscli/project/gradle.py:38-42 | `check` runs one `check` task in its own scope and exits with its code when it fails |
| Gradle.Gradle.Gradle | thiscli/project/gradle.py:25-30 | one command: the Gradle command, a space, the task name |
| Gradle.Gradle.Build | thiscli/project/gradle.py:32-33 | the `assemble` task for the environment |
| Gradle.Gradle.Test | thiscli/project/gradle.py:35-36 | the `test` task |
| Gradle.Gradle.Check | thiscli/project/gradle.py:38-42 | `check` as one step |
| Laravel.Laravel.constructor | thiscli/project/laravel.py:10-19 | a Node.js part exists exactly when `package.json` does; it can test with a `tests` directory or a Node.js test, and can build and lint only through Node.js |
| Laravel.Laravel.RunInTmux | thiscli/project/laravel.py:29-37 | with a runnable Node.js part, `run` spawns one tmux session with two panes: `php artisan serve`, then the npm script |
| Laravel.Laravel.TestRunsBothSuites | thiscli/project/laravel.py:48-53 | with both suites, `test` runs `./vendor/bin/phpunit` and then the npm test script |
| Laravel.Laravel.TestStepBoth | thiscli/project/laravel.py:48-53 | with `tests`, a Node.js test script and both sets of dependencies installed, on a host whose commands leave the files alone, `test` is exactly PHPUnit then the npm test script, whatever PHPUnit returns |
| Laravel.Laravel.PhpunitKeepsNodeDeps | thiscli/project/laravel.py:48-53 | on such a host PHPUnit leaves installed Node.js dependencies installed, so the npm test script installs nothing |
| Laravel.Laravel.LintThenTestInScope | thiscli/project/laravel.py:48-61 | `lint` then `test` in one outermost scope: the Node.js lint, PHPUnit and the Node.js tests run in order and closing reports the first failure |
| Laravel.Laravel.NoTestsFails | thiscli/project/laravel.py:54-55 | with neither suite, `test` fails with exit 1 and runs nothing |
| Laravel.Laravel.EnsureDeps | thiscli/project/laravel.py:25-27 | `composer install` when `vender` is missing or older than `composer.json` |
| Laravel.Laravel.Run | thiscli/project/laravel.py:29-40 | `run` as one step |
| Laravel.Laravel.Build | thiscli/project/laravel.py:42-46 | the Node.js build, or the base class's `build(env)`, a TypeError |
| Laravel.Laravel.Test | thiscli/project/laravel.py:48-55 | `test` as one step |
| Laravel.Laravel.Lint | thiscli/project/laravel.py:57-61 | the Node.js lint, or the base class's lint |
| Laravel.StripKeepsPhpunit | thiscli/project/laravel.py:51 | the phpunit command is run as written |
| Make.FirstKnown | thiscli/project/make.py:20-23 | no candidate is a target exactly when none is found; one found is a candidate and a target |
| Make.FirstKnownIsFirst | thiscli/project/make.py:20-23 | the earliest candidate that is a target is the one chosen |
| Make.ActionTargets | thiscli/project/make.py:16-33 | `build` runs plain `make`; `test` runs `make test`, else `make check`, else nothing |
| Make.GivingUpIsFatal | thiscli/project/make.py:22-26 | no known target is fatal with the candidates listed, and runs nothing; an empty name counts as none |
| Make.Make.constructor | thiscli/project/make.py:8-10 | the project keeps the target list it was given |
| Make.Make.Target | thiscli/project/make.py:16-27 | `target` as one step |
| Make.Make.Build | thiscli/project/make.py:29-30 | the default target |
| Make.Make.Test | thiscli/project/make.py:32-33 | the `test` or `check` target |
| Meson.ActionPlans | thiscli/project/meson.py:13-28 | a configured build directory runs only the ninja command; otherwise `meson setup` comes first |
| Registry.LoneMesonBuildDetected | tests/test_meson.py:8-15 | a directory holding only `meson.build` is detected as a Meson project rooted there |
| Registry.SampleTreeDetected | tests/test_python.py:8-15 | the Python test suite's tree is detected as a Python project rooted at its directory |
| Meson.LoneMesonBuild | tests/test_meson.py:18-21 | a project with only `meson.build` is set up, then built |
| Meson.Meson.constructor | thiscli/project/meson.py:9-11 | the project is rooted where `meson.build` was found |
| Meson.Meson.EnsureBuilddir | thiscli/project/meson.py:13-19 | unless the build directory is configured, `build` is created in the process's working directory and `meson setup` runs |
| Meson.Meson.Build | thiscli/project/meson.py:21-24 | the set-up, then `ninja -C build` |
| Meson.Meson.Test | thiscli/project/meson.py:26-28 | the set-up, then `ninja -C build test` |
| Nodejs.NpmChoiceRules | thiscli/project/nodejs.py:18-29 | yarn exactly when yarn is installed and there is a `yarn.lock` or no `package-lock.json`; fatal exactly for a `yarn.lock` without yarn and without `package-lock.json`; npm otherwise |
| Nodejs.FirstScript | thiscli/project/nodejs.py:71-81 | nothing is found exactly when no name has its environment variant or itself among the scripts; anything found is a script |
| Nodejs.FirstScriptAt | thiscli/project/nodejs.py:75-80 | the answer comes from the first name that has a match, and its environment variant is preferred to the plain name |
| Nodejs.EnvKeyDefault | thiscli/project/nodejs.py:76 | no environment, or an empty one, looks for the `dev` variant; any other is shortened first |
| Nodejs.EnvSpellings | thiscli/project/nodejs.py:76 | every spelling of an environment finds the same script |
| Nodejs.LoneScript | thiscli/project/nodejs.py:71-81 | one name is found exactly when it or its `:dev` variant is a script, and the variant wins |
| Nodejs.DashArgs | thiscli/project/nodejs.py:84-86 | extra arguments get a leading `--` exactly for npm with arguments; otherwise they pass as they are |
| Nodejs.Nodejs.constructor | thiscli/project/nodejs.py:35-52 | reads the scripts, chooses the package manager, adds Yarn or npm to `using`, and decides each ability by whether its scripts exist; a missing `package.json` raises and a lock conflict warns |
| Nodejs.Nodejs.MissingScriptIsFatal | thiscli/project/nodejs.py:90-93 | without a matching script the call is fatal with the names looked for, and nothing runs |
| Nodejs.Nodejs.CurrentScriptIsOneCommand | thiscli/project/nodejs.py:83-95 | with dependencies up to date, a found script is exactly one `cmd` of the package manager's `run` |
| Nodejs.Nodejs.FoundScriptRuns | thiscli/project/nodejs.py:90-95 | with a matching script and fresh dependencies exactly one command runs: `<manager> run <script>` and the arguments |
| Nodejs.Nodejs.InstallFirst | thiscli/project/nodejs.py:58-95 | without `node_modules` the install runs before the script |
| Nodejs.Nodejs.BuildNames | thiscli/project/nodejs.py:97-103 | no environment tries `build`, `dev`, `development`; one in the production names raises a TypeError; any other tries `build` for that environment |
| Nodejs.Nodejs.EnsureDeps | thiscli/project/nodejs.py:58-60 | `install` when `node_modules` is missing or older than `package.json` |
| Nodejs.Nodejs.FindScript | thiscli/project/nodejs.py:71-81 | the loop returns exactly the script the search defines |
| Nodejs.Nodejs.NpmScript | thiscli/project/nodejs.py:83-95 | `npm_script` as one step |
| Nodejs.Nodejs.Build | thiscli/project/nodejs.py:97-103 | `build` as one step |
| Nodejs.Nodejs.Run | thiscli/project/nodejs.py:105-106 | the first of `watch`, `start`, `serve` for the environment |
| Nodejs.Nodejs.Test | thiscli/project/nodejs.py:108-109 | the `test` script |
| Nodejs.Nodejs.Lint | thiscli/project/nodejs.py:111-115 | the `lint` script, given `--fix` when fixing |
| Nodejs.Nodejs.Deploy | thiscli/project/nodejs.py:117-121 | the `deploy` script when there is one, else the base class's `deploy(env)`, a TypeError |
| Python.EnvPriority | thiscli/project/python.py:33-40 | Pipenv exactly with a `Pipfile`, pip-tools exactly with `requirements.in` and no `Pipfile`, plain requirements exactly with only `requirements.txt`, none otherwise |
| Python.WithInit | thiscli/project/python.py:28-29 | keeps exactly the listed names that hold an `__init__.py` |
| Python.PackagesAreInitDirs | thiscli/project/python.py:28-29 | a package is a directory of the root holding `__init__.py` |
| Python.Description | thiscli/project/python.py:51-62 | always starts with `Python project`; ends with `setup.py` whenever `setup.py` exists; is exactly `Python project` with neither a manager nor `setup.py` |
| Python.DescriptionShape | thiscli/project/python.py:51-62 | `Python project`, then ` using <manager>`, then ` and setup.py` or ` using setup.py` by whether a manager was named |
| Python.FindPackages | thiscli/project/python.py:28-29 | the listing loop returns exactly the packages |
| Python.SamplePackages | tests/test_python.py:8-11 | the test's tree has the one package `my_package` |
| Python.SampleSetup | tests/test_python.py:8-11 | the test's tree has `setup.py` and no dependency manager |
| Python.Python.constructor | thiscli/project/python.py:25-42 | records the packages and the manager, is able to build and test exactly with `setup.py`, and is fatal without a package |
| Python.Python.LintRunsAll | thiscli/project/python.py:76-84 | `lint` runs two or three commands whatever they return; inside an open scope the first failure is stored, on its own it exits with it |
| Python.Python.LintersLog | thiscli/project/python.py:82-83 | `flake8` and then `pylint`, each given the packages |
| Python.Python.LintThenTestInScope | thiscli/project/python.py:70-84 | `lint` then `test` in one outermost scope: the lint's nested scope neither exits nor clears the code; with `setup.py` the test joins the scope and closing reports the first failure, without it the base failure exits 1 at once |
| Python.Python.LintOrder | thiscli/project/python.py:81-84 | the first two commands of a lint are `flake8` and `pylint` |
| Python.Python.SampleLint | tests/test_python.py:28-32 | for the test's tree the linters are `flake8 my_package` and `pylint my_package` |
| Python.Python.Build | thiscli/project/python.py:64-68 | `python setup.py build`, or the base class's message |
| Python.Python.Test | thiscli/project/python.py:70-74 | `python setup.py test`, or the base class's message |
| Python.Python.Lint | thiscli/project/python.py:76-84 | `lint` as one step |
| Registry.EveryInstanceTests | thiscli/project/__init__.py:57-58 | every class a project can be constructed from defines its own `test`, and Ansible is the only class defining neither `lint` nor `test` |
| Registry.OneCommandScope | thiscli/project/__init__.py:81-85 | a scope around one command logs it once and exits with its code when it fails |
| Registry.CheckWithoutLint | thiscli/project/__init__.py:77-85 | for classes without their own `lint`, `check` is their `test` inside one scope |
| Registry.CargoCheckRunsOnlyTheTest | thiscli/project/__init__.py:77-85 | a Cargo `check` runs only `cargo test`, and exits with its code when it fails |
| Registry.DotnetCheckRunsOnlyTheTest | thiscli/project/__init__.py:77-85 | a .NET `check` runs only `dotnet test`, and exits with its code when it fails |
| Registry.PythonLintDoesNotStopCheck | thiscli/project/__init__.py:81-85 | inside `check` the Python lint stores its failure instead of exiting, and the test runs after it in the same scope |
| Registry.CheckWithLint | thiscli/project/__init__.py:77-85 | for Node.js, Python and Laravel, `check` is `lint(fix=False)` and then `test()` in one scope |
| Registry.PythonCheckReportsFirstFailure | thiscli/project/__init__.py:77-85 | Python `check`: the linters (and `setup.py check`), then `setup.py test`, all run, logged in order, and the process exits with the first failing code or carries on when all succeed; without `setup.py` the test's base failure exits 1 at once, dropping a stored lint failure |
| Registry.NodejsCheckReportsFirstFailure | thiscli/project/__init__.py:77-85 | Node.js `check` with both scripts and dependencies installed: the lint script then the test script run, and the process exits with the first failing code or carries on when both succeed |
| Registry.NodejsCheckMissingScript | thiscli/project/nodejs.py:83-93 | within `check`, a missing `lint` script is fatal before anything runs, and a missing `test` script is fatal after the lint ran, whatever it returned |
| Registry.LaravelCheckReportsFirstFailure | thiscli/project/__init__.py:77-85 | Laravel `check` with a Node.js lint and test script, `tests` and everything installed: the Node.js lint, PHPUnit and the Node.js tests run in order, and the process exits with the first failing code or carries on |
| Registry.LaravelCheckNeedsNodeLint | thiscli/project/laravel.py:57-61 | without a Node.js lint script Laravel's `check` ends at once with the lint message and exit 1, before any test |
| Registry.GradleCheckIsItsOwn | thiscli/project/gradle.py:38-42 | Gradle's own `check` replaces the base one: it defines no `lint`, runs exactly one command, and never reports that it cannot check |
| Registry.LintAction | thiscli/project/__init__.py:74-75 | `lint` dispatched to the project's class |
| Registry.TestAction | thiscli/project/__init__.py:64-66 | `test` dispatched to the project's class |
| Registry.CheckAction | thiscli/project/__init__.py:77-85 | `check`: the message and exit 1 without `lint` or `test`, else the lint and then the test in one scope |
| Registry.FirstFound | thiscli/project/__init__.py:117-123 | nothing exactly when no class finds a root; otherwise the first class that finds one, with its root, and every earlier class found none |
| Registry.PriorityBeforeProximity | thiscli/project/__init__.py:96-100 | an Autotools root further up wins over a nearer Meson root, because classes are tried in order |
| Registry.GitStopsEveryScan | thiscli/project/__init__.py:113-114 | a `.git` in the starting directory without a marker stops every class's scan |
| Registry.ConstructBuildSystem | thiscli/project/__init__.py:112 | the build-system class found is constructed at its root |
| Registry.Construct | thiscli/project/__init__.py:112 | the class found is constructed at its root, with the Node.js or Python constructor's effects |
| Registry.DetectedKind | thiscli/project/__init__.py:96-100 | detection only ever answers one of the five classes `find` tries: Autotools, Meson, CMake, Node.js, Python |
| Registry.ConstructNodejs | thiscli/project/nodejs.py:35-52 | the Node.js class found is constructed at the root found, with the constructor's effects on the process |
| Registry.ConstructPython | thiscli/project/python.py:25-42 | the Python class found is constructed at the root found, with the constructor's effects on the process |
| Registry.FindOneOf | thiscli/project/__init__.py:117-123 | the loop over the classes answers exactly the first class whose upward scan finds a root, with that root, and nothing when none does |
| Registry.Find | thiscli/project/__init__.py:87-106 | the project found is the first class's root as above; with none the message is printed and the process exits 1 |
| Tmux.Interleaved | thiscli/tmux.py:13-14 | each command is preceded by its echo |
| Tmux.TmuxLineShapes | thiscli/tmux.py:13-16 | an empty pane only ends the session; a one-command pane echoes it, runs it, then ends the session |
| Tmux.TmuxLineSnoc | thiscli/tmux.py:13-14 | one more command adds its echo and itself at the end |
| Tmux.Splits | thiscli/tmux.py:41-42 | three arguments per later pane |
| Tmux.SplitsAt | thiscli/tmux.py:41-42 | the k-th later pane is `split-window`, its line, `;` |
| Tmux.SplitsSnoc | thiscli/tmux.py:41-42 | one more pane adds its split at the end |
| Tmux.PaneLines | thiscli/tmux.py:40-42 | each pane's commands become its tmux line, in order |
| Tmux.PaneLayout | thiscli/tmux.py:36-43 | the command line is the prelude, the first pane's `new-session`, each later pane's `split-window` in order, and `select-layout even-horizontal` |
| Tmux.Formats | thiscli/tmux.py:28-30 | each captured call is recorded as its formatted command |
| Tmux.CapturedAll | thiscli/tmux.py:28-33 | while a pane is open, calls run nothing and are appended to the capture in order |
| Tmux.PaneHoldsCommands | thiscli/tmux.py:24-34 | a pane around some calls leaves the process as it was and hands back their formatted commands |
| Tmux.Tmux.constructor | thiscli/tmux.py:19-22 | a session with no panes |
| Tmux.Tmux.BeginPane | thiscli/tmux.py:24-32 | opening a pane starts the capture |
| Tmux.Tmux.EndPane | thiscli/tmux.py:32-34 | closing a pane appends what it captured to the panes |
| Tmux.SessionStep | thiscli/tmux.py:36-45 | without panes an IndexError and nothing runs; otherwise exactly one tmux run is logged and its code is ignored, so the process keeps running with its stored code |
| Tmux.Tmux.Run | thiscli/tmux.py:36-45 | `run` spawns one tmux with the layout above and `SHELL=bash`; with no pane it raises an IndexError |
| Ansible.FoundIsPresent | thiscli/project/ansible.py:87-88 | a root found by the `ansible` marker passes `is_present` |
| Ansible.EnvCandidates | thiscli/project/ansible.py:27-31 | three file names per environment name, and a name is a candidate exactly when it is one of some name's three |
| Ansible.InventoryLayout | thiscli/project/ansible.py:27-32 | the k-th name's three candidates sit at positions 3k to 3k+2, and the two generic names come last |
| Ansible.FindFile | thiscli/project/ansible.py:47 | nothing exactly when no listed file exists; otherwise an existing listed file |
| Ansible.FindFileFirst | thiscli/project/ansible.py:47 | the file found is the first listed one that exists |
| Ansible.FoundIffHasInventory | thiscli/project/ansible.py:27-38 | the candidates of an environment contain an existing file exactly when that environment has an inventory |
| Ansible.WithInventory | thiscli/project/ansible.py:35-38 | keeps exactly the names that have an inventory |
| Ansible.InventoryStep | thiscli/project/ansible.py:41-61 | a found inventory is returned with nothing changed; otherwise nothing is returned, nothing runs and a running process exits with code 1, by the hint or by the list of names tried (`Ansible.HintNamesEnvs`, `Ansible.MissingListsNames`) |
| Ansible.InventoryFound | thiscli/project/ansible.py:41-61 | a found inventory is returned and nothing else happens |
| Ansible.MessagePrefixes | thiscli/project/ansible.py:54-59 | the two messages have one `{}` field each, at the end |
| Ansible.HintNamesEnvs | thiscli/project/ansible.py:49-56 | without `--env` and without a generic inventory, a project with environments gets the hint naming them, joined by a spaced vertical bar, and exits 1 |
| Ansible.MissingListsNames | thiscli/project/ansible.py:49-59 | when no inventory is found and the hint does not apply (an environment was given, or none was and no environment has an inventory), nothing is returned, nothing runs, the process exits 1 and the message lists every name tried, space-separated |
| Ansible.EmptyEnvGetsNoHint | thiscli/project/ansible.py:49-59 | an empty `--env` searches only the generic names and gets no hint, because only an absent environment does |
| Ansible.DeployCommands | thiscli/project/ansible.py:75-84 | `deploy` installs the roles if there are any, then runs `ansible-playbook -i <inventory> <playbook>` |
| Ansible.InstallRoles | thiscli/project/ansible.py:20-24 | `ansible-galaxy install -r ansible/requirements.yml` exactly when that file exists |
| Ansible.FindFirstFile | thiscli/project/ansible.py:47 | the loop returns exactly the first existing file |
| Ansible.FindInventory | thiscli/project/ansible.py:41-61 | `find_inventory` as one step |
| Ansible.FindPlaybook | thiscli/project/ansible.py:64-72 | the first of `ansible/deploy.yml` and `ansible/playbook.yml` that exists, else fatal with both names |
| Ansible.Deploy | thiscli/project/ansible.py:82-84 | `deploy` as one step |
| LegacyNodejs.NextScript | dothingy/project/nodejs.py:62-63 | nothing exactly when no listed name is a script; otherwise a listed script |
| LegacyNodejs.NextScriptAt | dothingy/project/nodejs.py:62-63 | the answer is the first listed name that is a script |
| LegacyNodejs.NoEnvironmentVariants | dothingy/project/nodejs.py:55-67 | where the newer search settles for `build:dev`, the older one finds nothing |
| LegacyNodejs.LegacyNodejs.constructor | dothingy/project/nodejs.py:32-36 | reads the scripts and chooses the package manager as the newer type does |
| LegacyNodejs.LegacyNodejs.ScriptOutcomes | dothingy/project/nodejs.py:55-67 | a missing script is fatal with the names and runs nothing; a found one, with fresh dependencies, runs `<manager> run <script>` and the arguments |
| LegacyNodejs.LegacyNodejs.LintArgs | dothingy/project/nodejs.py:75-79 | `--fix` exactly when fixing |
| LegacyNodejs.LegacyNodejs.EnsureDeps | dothingy/project/nodejs.py:42-44 | `install` when `node_modules` is missing or older than `package.json` |
| LegacyNodejs.LegacyNodejs.NpmScript | dothingy/project/nodejs.py:55-67 | `npm_script` as one step |
| LegacyNodejs.LegacyNodejs.Build | dothingy/project/nodejs.py:69-70 | the `build` script |
| LegacyNodejs.LegacyNodejs.Test | dothingy/project/nodejs.py:72-73 | the `test` script |
| LegacyNodejs.LegacyNodejs.Lint | dothingy/project/nodejs.py:75-79 | the `lint` script, given `--fix` when fixing |
| LegacyPython.SetupBuildStep | dothingy/project/python.py:12-13 | `build` raises an AttributeError before anything runs or prints |
| LegacyPython.PythonSetup.constructor | dothingy/project/python.py:15-17 | the project is rooted where `setup.py` was found |
| LegacyPython.PythonSetup.Build | dothingy/project/python.py:12-13 | `build` as one step |
| LegacyPython.PythonSetup.Test | dothingy/project/__init__.py:68-69 | the base class's `test` message |
| LegacyPython.PythonPipenv.constructor | dothingy/project/python.py:20-23 | the project is rooted where `Pipenv` was found |
| LegacyPython.PythonPipenv.Build | dothingy/project/__init__.py:59-60 | the base class's `build` message |
| LegacyPython.PythonPipenv.Test | dothingy/project/__init__.py:68-69 | the base class's `test` message |
| LegacyRegistry.FirstOf | dothingy/project/__init__.py:107-113 | nothing exactly when no class finds a root; otherwise the first class's answer, every earlier one having found none |
| LegacyRegistry.DetectionOrder | dothingy/project/__init__.py:81-96 | Autotools first, then Meson, then Python, which is itself the setup class and then the Pipenv class |
| LegacyRegistry.SetupBeforePipenv | dothingy/project/python.py:4-8 | a `setup.py` further up wins over a nearer `Pipenv` |
| LegacyRegistry.FindClass | dothingy/project/python.py:4-23 | each class's `find` returns exactly its answer |
| LegacyRegistry.FindOneOf | dothingy/project/__init__.py:107-113 | the loop returns exactly the first answer |
| LegacyRegistry.Find | dothingy/project/__init__.py:81-96 | the project found is the first answer, with nothing else changed; with none the message is printed and the process exits 1 |
| LegacyRegistry.PythonClassesCannotCheck | dothingy/project/__init__.py:71-73 | neither Python class defines `lint` or `test`, so `check` and `test` print their messages and exit 1 |
| LegacyRegistry.NodejsCheck | dothingy/project/__init__.py:71-79 | a Node.js `check` resets the delayed code to 0, then runs the lint and the test scripts in one scope |
| LegacyRegistry.LintAction | dothingy/project/__init__.py:65-66 | `lint` dispatched to the project's class |
| LegacyRegistry.TestAction | dothingy/project/__init__.py:68-69 | `test` dispatched to the project's class |
| LegacyRegistry.CheckAction | dothingy/project/__init__.py:71-79 | `check` as one step |

## Detection order

- Detection tries the classes in a fixed order, and each one scans the whole
  way up before the next is tried. So a marker of an earlier class further
  up the tree wins over a nearer marker of a later class
  (`Registry.PriorityBeforeProximity`).
- Markers are compared as plain names. The .NET marker `*.csproj` is
  therefore matched only by an entry literally called `*.csproj`, not used
  as a glob pattern (`Dotnet.MarkerIsLiteral`).

## Left out

- Console colours and styles, the `click` command-line layer, option parsing,
  and dry-run output are not modelled. A printed line is kept as its text.
- Subprocesses, files, `shutil.which`, `os.name`, `os.environ`,
  `os.getcwd()`, modification times and the parsing of `package.json` are
  answers of the `Process.Host` parameter. Nothing is executed.
- `os.path.realpath` is not modelled. Paths are taken as already resolved,
  and the filesystem is a list of existing paths whose order is the listing
  order.
- `threading.local` is one field of the process. There is one thread.
- The source uses names it never defines: `format_command`,
  `DEV_PROD_NAMES`, `is_env_release`, `env_to_release_or_debug`, the base
  `using` list, the base `can_deploy` flag, and `Project.find_file`. All but
  the last are fields of `Process.Host`; `find_file` is read as "the first
  listed file that exists".
- Make.Make.constructor: the target list that `make -pRrq` prints is a
  constructor parameter. The shell pipeline that produces it is not modelled.
- Nodejs.Nodejs.constructor: `using` is a per-instance list. In the source,
  `self.using.append` mutates a list shared by the class, so entries build
  up across instances; that sharing is not modelled.
- The `thiscli` registry tries Autotools, Meson, CMake, Node.js and Python
  only, as the code does. Make, Cargo, .NET, Gradle, Laravel and Ansible are
  reached only by constructing them directly.
- Ansible: `AnsibleProject` defines no `build` or `test`, and Python refuses
  to instantiate it. Its behaviour is modelled as the module's functions,
  given a root.
- Ansible.Deploy: the candidate order of `all_env_names` iterates a `set`,
  whose order Python does not fix. The order is a parameter.
  `Ansible.FoundIffHasInventory` requires it to list exactly those names;
  the other members accept any order.
- The `dothingy` copy:
  - its Autotools and Meson modules are not part of this model, so their
    `find` answers are the `LegacyRegistry.Given` parameter;
  - its `util.py` has only `walk_up`, yet its `nodejs.py` imports
    `needs_update`, `has_command`, `warn` and `fatal` from it. The model
    uses the `thiscli` versions in their place;
  - its `NodejsProject` is not in its registry, so it is reached only
    directly.
- Text.Capitalize / Text.LowerAll: case mapping is ASCII only. Python's
  `str.capitalize` and `str.lower` map every Unicode letter, and titlecase
  the first character; non-ASCII letters are kept unchanged here.
- Text.Format: only `{}` fields are handled. A lone `{` or `}` is copied
  through where Python raises ValueError, and `{{` and `}}` are not
  unescaped; named and numbered fields are not modelled either. Every
  template the program formats has exactly one `{}` and no other brace, so
  no call of the program reaches these cases.
- Engine.OverlayWins: an `env` argument is a sequence of key and value
  pairs, which may repeat a key; the source passes a dict, which cannot.
  Only sequences with distinct keys stand for inputs of the source. This
  contract and those of `Engine.EnvAssignments` and `Engine.EchoLineOrder`
  hold for every sequence, repeated keys included.
- Tmux.Tmux.Run: the tmux session replaces the terminal, and its own
  behaviour and exit status are not modelled. `Project.cmd` is patched only
  in the sense that captured commands are recorded and not run.
- Kept as the source has them: the `vender` directory name in Laravel, the
  `specifiy` spelling in the Ansible hint, `package.json` opened from the
  process's working directory, and `os.makedirs('build')` relative to that
  directory.
- The test suite is not modelled as tests. The sample trees of
  `tests/test_python.py` and `tests/test_meson.py` appear as lemmas.
  `test_python.py` calls `build(env=None)` on a method that takes no
  environment.

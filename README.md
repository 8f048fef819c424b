# crispy-journey automation manager, modelled in Dafny

This project models the task registry of crispy-journey's `AutomationManager`
(`src/crispy_journey/automation.py`). The manager keeps a dictionary from task
names to callables. `register_task` binds a name and silently overwrites an
earlier binding. `run_task` looks a name up. A missing name and a handler
that raises both become a printed diagnostic and a `False` result. The error
is never propagated. `list_tasks` returns the registered names.
`setup_automation` binds four built-in tasks: `lint`, `test`, `format` and
`security`. Each built-in task prints a banner, runs an external tool without
enforcing success, and reports on the tool's return code. The command-line
entry point runs one task by name and exits with status 1 when it fails.

Files and modules:

- `builtin_tasks.dfy`, module `BuiltinTasks`: the four built-in tasks. They
  share one template, `CheckedRun`, which maps a command result to the lines
  printed.
- `registry.dfy`, module `Registry`: the registry as a value (`Table`). It
  holds registration, running a task (`Run`), the default set-up (`Setup`),
  the command-line entry point (`Cli`), and the lemmas relating them.
- `automation.dfy`, module `Automation`: the class `AutomationManager`. Its
  `tasks` map and `order` sequence are updated in place. Each method is proved
  against the functions of `Registry`.

Modelling choices:

- A handler is opaque. `Builtin(task)` stands for one of the manager's own
  bound methods. `Callable(id)` stands for any other callable.
- What a handler does is an input, `Env`. It gives the result each built-in
  task's command leaves behind, any exception a built-in task raises, the
  `Outcome` of every other callable, and the interpreter's message when a
  built-in task is given arguments. An `Outcome`
  is `Completed(printed)` or `Raised(printed, message)`. This replaces
  Python's catch-all `except Exception`.
- Printing is modelled as returned lines. Each line is the argument of one
  `print` call. `Report` carries the boolean result, the lines printed, and
  the one handler call made, if any.
- Python dictionaries list keys in first-insertion order. The class therefore
  keeps `order` beside `tasks`. The invariant `Wf` says `order` lists every key
  exactly once. Overwriting a name keeps its place.
- `run_task` itself never writes the map: `AutomationManager.RunTask` has no
  `modifies` clause. Handlers are modelled as unable to call back into the
  manager (see "## Left out").
- `list_tasks` returns the dictionary's keys, which Python keeps in
  first-insertion order (automation.py:52). The model keeps that order, and
  its key-set lemmas do not depend on it.

## Model

| member | source | states |
|---|---|---|
| Automation.AutomationManager.constructor | src/crispy_journey/automation.py:11-13 | A new manager has an empty task map and an empty key order. |
| Automation.AutomationManager.RegisterTask | src/crispy_journey/automation.py:15-22 | After registering, `name` maps to the new handler and every other entry is unchanged. A new name is appended to the key order; an existing one is overwritten in place. The key-order invariant is kept. |
| Automation.AutomationManager.RunTask | src/crispy_journey/automation.py:24-44 | The report equals `Registry.Run` on the current registry. The method may not modify anything, so the registry is unchanged in all three outcomes. |
| Automation.AutomationManager.ListTasks | src/crispy_journey/automation.py:46-52 | The listed names are exactly the registered names. Each appears once, so the list is as long as the map has entries. |
| Automation.AutomationManager.SetupAutomation | src/crispy_journey/automation.py:70-75 | The new registry is the old one after the four default registrations, in source order. The key-order invariant is kept. |
| Automation.RunDefaultTask | src/crispy_journey/automation.py:125-129 | Running a built-in task without arguments on a freshly set-up manager succeeds exactly when the task raises nothing. It then prints that task's report on its command's result. Otherwise it prints the banner and `Task '<name>' failed: <message>`. |
| BuiltinTasks.CheckedRun | src/crispy_journey/automation.py:79-85 | The banner comes first. Return code 0 yields only the success label. Any other code yields the failure label, then the captured stdout. Two lines are printed exactly when the code is 0. |
| BuiltinTasks.TaskOutput | src/crispy_journey/automation.py:77-115 | For each built-in task, code 0 prints exactly the banner and the success label. Any other code prints exactly the banner, the failure label and the tool's stdout. The second line is the success label exactly when the code is 0. |
| BuiltinTasks.LabelsDiffer | src/crispy_journey/automation.py:81-115 | Every task's success and failure labels differ, so the report tells pass from fail. |
| BuiltinTasks.VerdictDependsOnlyOnCode | src/crispy_journey/automation.py:81-85 | Two runs of a task print the same verdict line exactly when their return codes agree on being zero. |
| Registry.DiagnosticsNameTheTask | src/crispy_journey/automation.py:36-43 | The not-found diagnostic contains the task name. The failure diagnostic contains both the task name and the exception message. |
| Registry.Invoke | src/crispy_journey/automation.py:40 | Calling any other callable does what the environment says. A built-in task given arguments raises the interpreter's error before printing anything. Called without arguments it prints its banner first; it returns normally exactly when it raises nothing, and then prints its verdict on the command's result. |
| Registry.BuiltinRejectsArguments | src/crispy_journey/automation.py:77-115 | On a set-up manager, running a built-in task with any argument returns false, calls that task once, and prints only `Task '<name>' failed: <message>` with the interpreter's message. |
| Registry.Register | src/crispy_journey/automation.py:22 | After binding, the key set is the old one plus the name, and the name maps to the new handler. A new name is appended to the key order. An existing name keeps its place, and the order is unchanged. |
| Registry.Setup | src/crispy_journey/automation.py:70-75 | After setup, on any registry, each of the four default names is bound to its own built-in task. |
| Registry.DefaultsBound | src/crispy_journey/automation.py:72-75 | The four registrations, made in source order, leave each default name bound to its own built-in task, whatever the registry held before. |
| Registry.RegisterBinds | src/crispy_journey/automation.py:22 | After `Register`, the name maps to the new handler and all other bindings are unchanged. There is no duplicate check, so the map grows by one exactly when the name was new. Well-formedness of the key order is preserved. |
| Registry.LastRegistrationWins | src/crispy_journey/automation.py:22 | Registering twice under one name equals registering only the second handler. |
| Registry.OrderLength | src/crispy_journey/automation.py:52 | In a well-formed registry, the listed keys are exactly as many as the map's entries, so none is duplicated. |
| Registry.Run | src/crispy_journey/automation.py:35-44 | A handler is called exactly when the name is registered, and then once with the given arguments. A missing name gives false and `Task '<name>' not found`. A normal return gives true. A raise gives false and the handler's lines followed by `Task '<name>' failed: <message>`. |
| Registry.RunSucceedsIff | src/crispy_journey/automation.py:35-44 | `run_task` returns true if and only if the name is registered and its handler returns normally. |
| Registry.RunAfterRegister | src/crispy_journey/automation.py:22-41 | Right after registering `h` under a name, running that name calls `h` with exactly the given arguments. It succeeds exactly when `h` returns normally. |
| Registry.RegisterLeavesOthersRunning | src/crispy_journey/automation.py:22 | Registering one name does not change the result of running any other name. |
| Registry.ListingIgnoresRegistrationOrder | src/crispy_journey/automation.py:52 | After registering two tasks in either order, the listed names are exactly those two. |
| Registry.RunOnEmpty | src/crispy_journey/automation.py:35-37 | On an empty registry, running any name returns false and calls nothing. The only output is `Task '<name>' not found`. |
| Registry.RegisterAllLookup | src/crispy_journey/automation.py:22 | After a sequence of registrations, each name is bound to the handler of its last registration. Names never registered keep their old binding or stay unbound. Well-formedness is preserved. |
| Registry.SetupOnFresh | src/crispy_journey/automation.py:72-75 | On a fresh registry, setup leaves the order `lint, test, format, security` and binds each name to its own built-in task. |
| Registry.DefaultTable | src/crispy_journey/automation.py:72-75 | The registry after setup is well formed. Its key set is exactly {lint, test, format, security}, and each name is bound to its own built-in task. |
| Registry.SetupBindsDefaults | src/crispy_journey/automation.py:70-75 | On any registry, setup overwrites the four default names with their tasks. It leaves every other binding as it was and keeps well-formedness. |
| Registry.Cli | src/crispy_journey/automation.py:118-130 | With no task name the entry point prints the usage and exits 0. Otherwise it exits 1 exactly when running the task on a freshly set-up manager fails, and prints what the run printed. |
| Registry.CliRunsBuiltin | src/crispy_journey/automation.py:118-130 | Naming a built-in task that raises nothing exits 0, whatever its tool returned, and prints that task's report. A built-in task that raises prints its banner and the failure diagnostic, and exits 1. |
| Registry.CliRejectsUnknown | src/crispy_journey/automation.py:118-130 | Any other task name makes the entry point print `Task '<name>' not found` and exit with status 1. |

## Left out

- `run_command` (`subprocess.run` with `shell=True`) is a call to an external process. Only its result (return code, stdout, stderr) is modelled, as an input through `Env`. The `check=True` mode, which raises on a non-zero exit, is never used by the built-in tasks and is not modelled.
- The shell command strings of the four built-in tasks, and the running of flake8, pytest, black and bandit, are not modelled. Those tools are seen only through their results.
- Exceptions inside a built-in task are modelled by their message only (`Env.builtinError`): the shell failing to start, the tool's output failing to decode, or a ✅/❌ label failing to encode on the terminal. In each case the model has the task print only its banner before raising. An encoding error while printing the tool's stdout is modelled the same way, so the failure label that Python prints just before it is missing from the model's output.
- Registry.Run: handlers are modelled as unable to call back into the manager. In Python a handler runs arbitrary code (automation.py:40) and could, for example, call `setup_automation` and so change `tasks` during `run_task`. The model only guarantees that `run_task` itself never writes the map.
- Registry.Run: keyword arguments named `name` or `self` are not excluded. In Python such a call fails with a `TypeError` while binding `run_task`'s own parameters, before line 35, and that error propagates to the caller. The model instead passes them to the handler.
- Registry.Run: catches every modelled exception. Python's `except Exception` does not catch `BaseException` subclasses such as `KeyboardInterrupt` or `SystemExit`, and the model has no outcome for those.
- Handler arguments are modelled with string values. Arbitrary Python objects passed as positional or keyword arguments are not modelled.
- Handlers are compared by identity (`Builtin(task)` or `Callable(id)`). Python callables' own equality is not modelled.
- Output is modelled as the list of `print` arguments. The actual writes to stdout, including the newline each `print` adds, are not modelled.
- `sys.argv` and `sys.exit` are modelled as the argument list and exit status of `Cli`. Process termination itself is not modelled.
- `src/crispy_journey/utils.py` is not modelled. It contains logging configuration, path resolution and file I/O, with no logic beyond library calls.
- `setup.py` and `src/crispy_journey/__init__.py` are not modelled. They hold only packaging metadata and re-exports.

/**
  The task registry of the automation manager as values: a table from task
  names to handlers, registration, running a task by name with the
  runner's failure containment, the default set-up, and the command-line
  entry point. The class in module Automation keeps a table of this shape
  in its fields and is specified by the functions here.
 */
module Registry {
  import opened BuiltinTasks

  datatype Option<T> = None | Some(value: T)

  /**
    A handler is opaque to the registry: only its identity is kept. A
    built-in handler is one of the manager's own bound methods; any other
    callable is known by an identifier.
   */
  datatype Handler = Builtin(task: BuiltinTask) | Callable(id: nat)

  /** The positional and keyword arguments run_task passes on. */
  datatype Args = Args(positional: seq<string>, keyword: map<string, string>)

  const NoArgs: Args := Args([], map[])

  /**
    What invoking a handler does: it returns normally or raises an
    exception with a message, after printing some lines either way.
   */
  datatype Outcome = Completed(printed: seq<string>) | Raised(printed: seq<string>, message: string)

  /**
    Everything outside the registry that decides what a handler does: the
    result each built-in task's command leaves behind, the message of an
    exception a built-in task raises after its banner (the shell failing to
    start, the tool's output failing to decode, or the verdict label failing
    to encode on the terminal), if any, the behaviour of every other
    callable, and the interpreter's wording of the error raised when a
    built-in task (which takes no arguments) is given some.
   */
  datatype Env = Env(
    commandResult: BuiltinTask -> CommandResult,
    builtinError: BuiltinTask -> Option<string>,
    call: (nat, Args) -> Outcome,
    arityError: (BuiltinTask, Args) -> string)

  /**
    Invoking handler `h` with `args`. Any other callable does what the
    environment says. A built-in task takes no arguments: given some, it
    raises before printing anything. Called without arguments it prints its
    banner first, and then either raises or prints its verdict on the
    command's result and returns normally.
   */
  function Invoke(h: Handler, args: Args, env: Env): (o: Outcome)
    ensures h.Callable? ==> o == env.call(h.id, args)
    ensures h.Builtin? && args != NoArgs ==> o == Raised([], env.arityError(h.task, args))
    ensures h.Builtin? && args == NoArgs ==> |o.printed| >= 1 && o.printed[0] == Banner(h.task)
    ensures h.Builtin? && args == NoArgs ==> (o.Completed? <==> env.builtinError(h.task).None?)
    ensures h.Builtin? && args == NoArgs && o.Completed? ==> o.printed == TaskOutput(h.task, env.commandResult(h.task))
  {
    match h
    case Builtin(t) =>
      if args != NoArgs then Raised([], env.arityError(t, args))
      else if env.builtinError(t).Some? then Raised([Banner(t)], env.builtinError(t).value)
      else Completed(TaskOutput(t, env.commandResult(t)))
    case Callable(id) => env.call(id, args)
  }

  /** One invocation of a handler, with the arguments it received. */
  datatype Call = Call(handler: Handler, args: Args)

  /**
    What run_task gives back and leaves behind: its boolean result, the
    lines printed while it ran, and the handler call it made, if any.
   */
  datatype Report = Report(success: bool, output: seq<string>, called: Option<Call>)

  /** The diagnostic for a name that is not registered. */
  function NotFound(name: string): string
  {
    "Task '" + name + "' not found"
  }

  /** The diagnostic for a handler that raised. */
  function Failed(name: string, message: string): string
  {
    "Task '" + name + "' failed: " + message
  }

  /** `part` occurs in `s` starting at index `i`. */
  ghost predicate OccursAt(s: string, part: string, i: int)
  {
    0 <= i <= |s| - |part| && s[i..i + |part|] == part
  }

  ghost predicate Contains(s: string, part: string)
  {
    exists i :: OccursAt(s, part, i)
  }

  /** Both diagnostics quote the task name, and the failure one the message too. */
  lemma DiagnosticsNameTheTask(name: string, message: string)
    ensures Contains(NotFound(name), name)
    ensures Contains(Failed(name, message), name)
    ensures Contains(Failed(name, message), message)
  {
    assert OccursAt(NotFound(name), name, 6);
    assert OccursAt(Failed(name, message), name, 6);
    var prefix := "Task '" + name + "' failed: ";
    assert Failed(name, message) == prefix + message;
    assert OccursAt(prefix + message, message, |prefix|);
  }

  /**
    The registry: a map from names to handlers, and the order in which the
    names were first inserted (the order a Python dict lists its keys in).
   */
  datatype Table = Table(order: seq<string>, entries: map<string, Handler>)

  predicate Distinct(s: seq<string>)
  {
    forall i, j :: 0 <= i < j < |s| ==> s[i] != s[j]
  }

  /** The order lists every key of the map exactly once. */
  ghost predicate Wf(t: Table)
  {
    Distinct(t.order) && forall k :: k in t.order <==> k in t.entries
  }

  const Empty: Table := Table([], map[])

  /**
    Binding `name` to `h`: a new name is appended to the order, an existing
    one is overwritten in place without any duplicate check.
   */
  function Register(t: Table, name: string, h: Handler): (r: Table)
    ensures r.entries.Keys == t.entries.Keys + {name} && r.entries[name] == h
    ensures name in t.entries ==> r.order == t.order
    ensures name !in t.entries ==> r.order == t.order + [name]
  {
    Table(if name in t.entries then t.order else t.order + [name], t.entries[name := h])
  }

  /**
    After registering, `name` is bound to `h`, every other name keeps its
    binding (or stays unbound), and the key order stays well formed.
   */
  lemma RegisterBinds(t: Table, name: string, h: Handler)
    ensures Wf(t) ==> Wf(Register(t, name, h))
    ensures name in Register(t, name, h).entries && Register(t, name, h).entries[name] == h
    ensures forall k :: k != name ==> (k in Register(t, name, h).entries <==> k in t.entries)
    ensures forall k :: k != name && k in t.entries ==> Register(t, name, h).entries[k] == t.entries[k]
    ensures |Register(t, name, h).entries| == if name in t.entries then |t.entries| else |t.entries| + 1
  {
  }

  /** Registering twice under one name is the same as registering the second handler only. */
  lemma LastRegistrationWins(t: Table, name: string, h1: Handler, h2: Handler)
    ensures Register(Register(t, name, h1), name, h2) == Register(t, name, h2)
  {
  }

  /** A distinct sequence has as many elements as it has members. */
  lemma {:induction false} DistinctCardinality(s: seq<string>)
    requires Distinct(s)
    ensures |set k | k in s| == |s|
  {
    if s != [] {
      var tail := s[1..];
      assert Distinct(tail) by {
        forall i, j | 0 <= i < j < |tail| ensures tail[i] != tail[j] {
          assert tail[i] == s[i + 1] && tail[j] == s[j + 1];
        }
      }
      DistinctCardinality(tail);
      assert s[0] !in tail by {
        forall i | 0 <= i < |tail| ensures tail[i] != s[0] {
          assert tail[i] == s[i + 1];
        }
      }
      assert (set k | k in s) == (set k | k in tail) + {s[0]} by {
        assert s == [s[0]] + tail;
      }
    }
  }

  /** In a well-formed table the order is exactly as long as the map is large. */
  lemma OrderLength(t: Table)
    requires Wf(t)
    ensures |t.order| == |t.entries|
  {
    DistinctCardinality(t.order);
    assert (set k | k in t.order) == t.entries.Keys;
  }

  /**
    Running `name`: a missing name is reported without calling anything;
    otherwise the handler is called once with `args`, and an exception it
    raises is turned into a diagnostic and a false result.
   */
  function Run(t: Table, name: string, args: Args, env: Env): (r: Report)
    ensures r.called.Some? <==> name in t.entries
    ensures name !in t.entries ==> !r.success && r.output == [NotFound(name)]
    ensures name in t.entries ==> r.called == Some(Call(t.entries[name], args))
    ensures name in t.entries ==> (r.success <==> Invoke(t.entries[name], args, env).Completed?)
    ensures name in t.entries && Invoke(t.entries[name], args, env).Completed? ==>
              r.output == Invoke(t.entries[name], args, env).printed
    ensures name in t.entries && Invoke(t.entries[name], args, env).Raised? ==>
              r.output == Invoke(t.entries[name], args, env).printed
                          + [Failed(name, Invoke(t.entries[name], args, env).message)]
  {
    if name !in t.entries then
      Report(false, [NotFound(name)], None)
    else
      var h := t.entries[name];
      match Invoke(h, args, env)
      case Completed(printed) => Report(true, printed, Some(Call(h, args)))
      case Raised(printed, message) => Report(false, printed + [Failed(name, message)], Some(Call(h, args)))
  }

  /** run_task reports success exactly when a registered handler returns normally. */
  lemma RunSucceedsIff(t: Table, name: string, args: Args, env: Env)
    ensures Run(t, name, args, env).success <==>
              name in t.entries && Invoke(t.entries[name], args, env).Completed?
  {
  }

  /** Right after registering `h` under `name`, running `name` calls `h` with the given arguments. */
  lemma RunAfterRegister(t: Table, name: string, h: Handler, args: Args, env: Env)
    ensures Run(Register(t, name, h), name, args, env).called == Some(Call(h, args))
    ensures Run(Register(t, name, h), name, args, env).success <==> Invoke(h, args, env).Completed?
  {
  }

  /** Registering one name does not change how any other name runs. */
  lemma RegisterLeavesOthersRunning(t: Table, name: string, h: Handler, other: string, args: Args, env: Env)
    requires other != name
    ensures Run(Register(t, name, h), other, args, env) == Run(t, other, args, env)
  {
  }

  /** Listing two registered tasks yields the same two names whichever was registered first. */
  lemma ListingIgnoresRegistrationOrder(a: string, b: string, ha: Handler, hb: Handler)
    ensures (set k | k in Register(Register(Empty, a, ha), b, hb).order) == {a, b}
    ensures (set k | k in Register(Register(Empty, b, hb), a, ha).order) == {a, b}
  {
  }

  /** Running a name on an empty registry fails with exactly the not-found diagnostic. */
  lemma RunOnEmpty(name: string, args: Args, env: Env)
    ensures Run(Empty, name, args, env) == Report(false, ["Task '" + name + "' not found"], None)
  {
  }

  /** A registration, as one call of register_task. */
  datatype Registration = Registration(name: string, handler: Handler)

  /** Performing the registrations in `regs` one after another. */
  function RegisterAll(t: Table, regs: seq<Registration>): Table
    decreases |regs|
  {
    if regs == [] then t
    else
      var last := regs[|regs| - 1];
      Register(RegisterAll(t, regs[..|regs| - 1]), last.name, last.handler)
  }

  /** The handler of the last registration of `name` in `regs`, if any. */
  function LastFor(regs: seq<Registration>, name: string): Option<Handler>
    decreases |regs|
  {
    if regs == [] then None
    else if regs[|regs| - 1].name == name then Some(regs[|regs| - 1].handler)
    else LastFor(regs[..|regs| - 1], name)
  }

  /**
    After a batch of registrations a name is bound to the handler of its
    last registration; a name the batch does not mention keeps its old
    binding, or stays unbound. The table stays well formed throughout.
   */
  lemma {:induction false} RegisterAllLookup(t: Table, regs: seq<Registration>, name: string)
    ensures Wf(t) ==> Wf(RegisterAll(t, regs))
    ensures LastFor(regs, name).Some? ==>
              name in RegisterAll(t, regs).entries &&
              RegisterAll(t, regs).entries[name] == LastFor(regs, name).value
    ensures LastFor(regs, name).None? ==>
              (name in RegisterAll(t, regs).entries <==> name in t.entries) &&
              (name in t.entries ==> RegisterAll(t, regs).entries[name] == t.entries[name])
    decreases |regs|
  {
    if regs != [] {
      RegisterAllLookup(t, regs[..|regs| - 1], name);
    }
  }

  /** The bindings setup_automation makes, in the order it makes them. */
  const BuiltinRegistrations: seq<Registration> := [
    Registration("lint", Builtin(Lint)),
    Registration("test", Builtin(Test)),
    Registration("format", Builtin(Format)),
    Registration("security", Builtin(Security))
  ]

  const DefaultNames: seq<string> := ["lint", "test", "format", "security"]

  /** The table after setup_automation. */
  function Setup(t: Table): (r: Table)
    ensures forall b: BuiltinTask :: TaskName(b) in r.entries && r.entries[TaskName(b)] == Builtin(b)
  {
    DefaultsBound(t);
    RegisterAll(t, BuiltinRegistrations)
  }

  lemma RegisterAllSnoc(t: Table, regs: seq<Registration>, r: Registration)
    ensures RegisterAll(t, regs + [r]) == Register(RegisterAll(t, regs), r.name, r.handler)
  {
  }

  /** The default bindings as a map. */
  const DefaultEntries: map<string, Handler> :=
    map[]["lint" := Builtin(Lint)]["test" := Builtin(Test)]["format" := Builtin(Format)]["security" := Builtin(Security)]

  /** setup_automation is four calls of register_task, in this order. */
  lemma SetupUnfolds(t: Table)
    ensures RegisterAll(t, BuiltinRegistrations) ==
              Register(Register(Register(Register(t,
                "lint", Builtin(Lint)), "test", Builtin(Test)), "format", Builtin(Format)), "security", Builtin(Security))
  {
    var regs := BuiltinRegistrations;
    assert regs == [] + [regs[0]] + [regs[1]] + [regs[2]] + [regs[3]];
    RegisterAllSnoc(t, [], regs[0]);
    RegisterAllSnoc(t, [regs[0]], regs[1]);
    RegisterAllSnoc(t, [regs[0]] + [regs[1]], regs[2]);
    RegisterAllSnoc(t, [regs[0]] + [regs[1]] + [regs[2]], regs[3]);
  }

  /** After the four default registrations each default name is bound to its own task. */
  lemma DefaultsBound(t: Table)
    ensures forall b: BuiltinTask ::
              TaskName(b) in RegisterAll(t, BuiltinRegistrations).entries &&
              RegisterAll(t, BuiltinRegistrations).entries[TaskName(b)] == Builtin(b)
  {
    SetupUnfolds(t);
    var t3 := Register(Register(Register(t, "lint", Builtin(Lint)), "test", Builtin(Test)), "format", Builtin(Format));
    var t4 := Register(t3, "security", Builtin(Security));
    assert t3.entries["lint"] == Builtin(Lint) && t3.entries["test"] == Builtin(Test);
    forall b: BuiltinTask
      ensures TaskName(b) in t4.entries && t4.entries[TaskName(b)] == Builtin(b)
    {
      match b
      case Lint =>
      case Test =>
      case Format =>
      case Security =>
    }
  }

  /** The four default registrations, made on an empty registry. */
  lemma DefaultRegistrationsOnEmpty()
    ensures Register(Register(Register(Register(Empty,
              "lint", Builtin(Lint)), "test", Builtin(Test)), "format", Builtin(Format)), "security", Builtin(Security))
            == Table(DefaultNames, DefaultEntries)
  {
  }

  /**
    On a fresh registry, setup_automation leaves exactly the four default
    names, in the order they were registered, each bound to its own task.
   */
  lemma SetupOnFresh()
    ensures Setup(Empty) == Table(DefaultNames, DefaultEntries)
  {
    SetupUnfolds(Empty);
    DefaultRegistrationsOnEmpty();
  }

  /**
    The table setup_automation leaves on a fresh registry is well formed,
    its names are exactly the four defaults, and each default name is
    bound to its own task.
   */
  lemma DefaultTable()
    ensures Wf(Table(DefaultNames, DefaultEntries))
    ensures DefaultEntries.Keys == {"lint", "test", "format", "security"}
    ensures forall b: BuiltinTask :: TaskName(b) in DefaultEntries && DefaultEntries[TaskName(b)] == Builtin(b)
  {
  }

  /**
    On any registry, setup_automation binds the four default names to their
    tasks, overwriting what they were bound to, and keeps every other
    binding as it was.
   */
  lemma SetupBindsDefaults(t: Table, name: string)
    ensures Wf(t) ==> Wf(Setup(t))
    ensures name in DefaultNames ==> name in Setup(t).entries && Setup(t).entries[name] == DefaultEntries[name]
    ensures name !in DefaultNames ==>
              (name in Setup(t).entries <==> name in t.entries) &&
              (name in t.entries ==> Setup(t).entries[name] == t.entries[name])
  {
    SetupUnfolds(t);
    var t1 := Register(t, "lint", Builtin(Lint));
    var t2 := Register(t1, "test", Builtin(Test));
    var t3 := Register(t2, "format", Builtin(Format));
    RegisterBinds(t, "lint", Builtin(Lint));
    RegisterBinds(t1, "test", Builtin(Test));
    RegisterBinds(t2, "format", Builtin(Format));
    RegisterBinds(t3, "security", Builtin(Security));
  }

  /** How the command-line entry point ends: its exit status and the lines it printed. */
  datatype Exit = Exit(status: int, output: seq<string>)

  const UsageLines: seq<string> := [
    "Usage: python -m crispy_journey <task>",
    "Available tasks: lint, test, format, security"
  ]

  /**
    The command-line entry point: with no task name it prints the usage and
    exits normally; otherwise it sets up a fresh manager, runs the named
    task without arguments, and exits with status 1 when that fails.
    Arguments after the task name are ignored.
   */
  function Cli(argv: seq<string>, env: Env): (e: Exit)
    ensures e.status == 0 || e.status == 1
    ensures |argv| < 2 ==> e == Exit(0, UsageLines)
    ensures |argv| >= 2 ==> (e.status == 1 <==> !Run(Setup(Empty), argv[1], NoArgs, env).success)
    ensures |argv| >= 2 ==> e.output == Run(Setup(Empty), argv[1], NoArgs, env).output
  {
    if |argv| < 2 then Exit(0, UsageLines)
    else
      var r := Run(Setup(Empty), argv[1], NoArgs, env);
      Exit(if r.success then 0 else 1, r.output)
  }

  /**
    From the command line a default task that raises nothing exits with
    status 0 whatever its tool returned, and prints that task's report on
    the tool's result. If it raises, the banner is followed by the failure
    diagnostic and the status is 1.
   */
  lemma CliRunsBuiltin(argv: seq<string>, env: Env, b: BuiltinTask)
    requires |argv| >= 2 && argv[1] == TaskName(b)
    ensures env.builtinError(b).None? ==> Cli(argv, env) == Exit(0, TaskOutput(b, env.commandResult(b)))
    ensures env.builtinError(b).Some? ==>
              Cli(argv, env) == Exit(1, [Banner(b), Failed(TaskName(b), env.builtinError(b).value)])
  {
    SetupOnFresh();
  }

  /**
    A built-in task run with any argument fails without printing anything
    but the failure diagnostic, which carries the interpreter's message.
   */
  lemma BuiltinRejectsArguments(b: BuiltinTask, args: Args, env: Env)
    requires args != NoArgs
    ensures Run(Setup(Empty), TaskName(b), args, env) ==
              Report(false, [Failed(TaskName(b), env.arityError(b, args))], Some(Call(Builtin(b), args)))
  {
    SetupOnFresh();
  }

  /** Any other task name makes the command line print the not-found diagnostic and exit with status 1. */
  lemma CliRejectsUnknown(argv: seq<string>, env: Env)
    requires |argv| >= 2 && argv[1] !in DefaultNames
    ensures Cli(argv, env) == Exit(1, [NotFound(argv[1])])
  {
    SetupOnFresh();
    assert argv[1] !in Setup(Empty).entries.Keys;
  }
}

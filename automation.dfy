/**
  The automation manager: an object whose `tasks` dictionary is updated in
  place by register_task and setup_automation, and read by run_task and
  list_tasks. Python dictionaries remember the order in which keys were
  first inserted, so the object also keeps that order beside the map.
 */
module Automation {
  import opened BuiltinTasks
  import opened Registry

  class AutomationManager {
    /** The registered tasks, by name. */
    var tasks: map<string, Handler>
    /** The names of `tasks`, in the order they were first registered. */
    var order: seq<string>

    ghost predicate Valid()
      reads this
    {
      Wf(State())
    }

    /** The registry as a value. */
    function State(): Table
      reads this
    {
      Table(order, tasks)
    }

    /** A new manager has no tasks. */
    constructor ()
      ensures Valid()
      ensures tasks == map[] && order == []
    {
      tasks := map[];
      order := [];
    }

    /** Binds `name` to `task`, replacing any earlier binding of that name. */
    method RegisterTask(name: string, task: Handler)
      requires Valid()
      modifies this
      ensures Valid()
      ensures State() == Register(old(State()), name, task)
      ensures tasks == old(tasks)[name := task]
    {
      if name !in tasks {
        order := order + [name];
      }
      tasks := tasks[name := task];
    }

    /**
      Runs the task registered under `name` with `args`. The method has no
      modifies clause: whatever the outcome, the registry is left as it was.
     */
    method RunTask(name: string, args: Args, env: Env) returns (r: Report)
      ensures r == Run(State(), name, args, env)
    {
      if name !in tasks {
        r := Report(false, [NotFound(name)], None);
        return;
      }
      var handler := tasks[name];
      var outcome := Invoke(handler, args, env);
      if outcome.Completed? {
        r := Report(true, outcome.printed, Some(Call(handler, args)));
      } else {
        r := Report(false, outcome.printed + [Failed(name, outcome.message)], Some(Call(handler, args)));
      }
    }

    /** The registered names, each once, in registration order. */
    function ListTasks(): (names: seq<string>)
      reads this
      requires Valid()
      ensures Distinct(names)
      ensures forall k :: k in names <==> k in tasks
      ensures |names| == |tasks|
    {
      OrderLength(State());
      order
    }

    /** Registers the four default tasks. */
    method SetupAutomation()
      requires Valid()
      modifies this
      ensures Valid()
      ensures State() == Setup(old(State()))
    {
      ghost var t0 := State();
      RegisterTask("lint", Builtin(Lint));
      RegisterTask("test", Builtin(Test));
      RegisterTask("format", Builtin(Format));
      RegisterTask("security", Builtin(Security));
      SetupUnfolds(t0);
    }
  }

  /**
    The command-line flow on the object: a fresh manager, the default
    set-up, one run of the named task without arguments. Unless the task
    raises, the run succeeds and prints that task's report; if it raises,
    the banner is followed by the failure diagnostic.
   */
  method RunDefaultTask(b: BuiltinTask, env: Env) returns (success: bool, output: seq<string>)
    ensures success <==> env.builtinError(b).None?
    ensures success ==> output == TaskOutput(b, env.commandResult(b))
    ensures !success ==> output == [Banner(b), Failed(TaskName(b), env.builtinError(b).value)]
  {
    var manager := new AutomationManager();
    manager.SetupAutomation();
    SetupOnFresh();
    DefaultTable();
    var r := manager.RunTask(TaskName(b), NoArgs, env);
    success, output := r.success, r.output;
  }
}

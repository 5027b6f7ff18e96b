/** The command-line front end of cork/main.cpp: a registry of named
    commands (`CmdList`) and the loop that dispatches `-name arg ...` tokens
    to them. A handler is described by what it does with the argument list;
    every `exit(n)` becomes an `Exited` status returned to the caller. */
module CorkCommands {

  datatype Option<T> = None | Some(value: T)

  /** The four Boolean operators that `genericBinaryOp` wraps. */
  datatype BoolOp = Union | Difference | Intersection | SymmetricDifference

  /** The body registered with a command. */
  datatype Handler =
    | ShowHelp            // prints the help text, then exit(0)
    | SolidTest           // -solid in
    | BinaryOp(op: BoolOp)  // -union/-diff/-isct/-xor in0 in1 out

  datatype Command = Command(name: string, helptxt: string, body: Handler)

  /** What a run does besides reading arguments, in the order it does it. */
  datatype Effect =
    | PrintHelp
    | Load(file: string)         // loadMesh
    | Compute(op: BoolOp)        // the wrapped Boolean operation
    | Save(file: string)         // saveMesh
    | ReportSolid(file: string)  // isSolid and its report

  /** Why the process stopped. */
  datatype Reason =
    | Completed                  // main returned 0
    | NoArguments                // argc < 2
    | HelpShown
    | MissingDash(token: string) // "All commands must begin with '-'"
    | TooFewArgs
    | NotRecognized(name: string)

  /** `Returned`: control came back normally; `Exited`: `exit(code)` ran. */
  datatype Status = Returned | Exited(code: int, reason: Reason)

  /** The effects of a run in order, the argument iterator's position
      afterwards, and how control left. */
  datatype Run = Run(effects: seq<Effect>, pos: nat, status: Status)

  /** A run that first performs `effects` and then continues as `rest`. */
  function Then(effects: seq<Effect>, rest: Run): (r: Run)
  {
    Run(effects + rest.effects, rest.pos, rest.status)
  }

  /** The number of tokens a handler takes after its command name. */
  function Arity(h: Handler): (n: nat)
    ensures n <= 3
    ensures n == 0 <==> h.ShowHelp?
  {
    match h
    case ShowHelp => 0
    case SolidTest => 1
    case BinaryOp(_) => 3
  }

  /** The exit code the source uses for each way of stopping. */
  function ExitCode(reason: Reason): (code: int)
    ensures code == 0 || code == 1
    ensures code == 0 <==> reason.Completed? || reason.NoArguments? || reason.HelpShown?
  {
    match reason
    case Completed => 0
    case NoArguments => 0
    case HelpShown => 0
    case _ => 1
  }

  // ---------------------------------------------------------------------
  // Handlers

  /** The `solid` handler: takes one input name, loads it and reports
      whether it is solid; with no argument left it exits with 1. */
  function SolidBody(args: seq<string>, pos: nat): (r: Run)
    requires pos <= |args|
    ensures r.status == Returned <==> pos < |args|
    ensures r.status == Returned ==>
      r.pos == pos + 1 && r.effects == [Load(args[pos]), ReportSolid(args[pos])]
    ensures r.status.Exited? ==> r == Run([], pos, Exited(1, TooFewArgs))
  {
    if pos == |args| then Run([], pos, Exited(1, TooFewArgs))
    else
      var file := args[pos];
      Run([Load(file), ReportSolid(file)], pos + 1, Returned)
  }

  /** The handler built by `genericBinaryOp`: takes two input names and an
      output name, checking before each that one is left. The operation is
      computed before the check for the output name. */
  function BinaryOpBody(op: BoolOp, args: seq<string>, pos: nat): (r: Run)
    requires pos <= |args|
    ensures pos <= r.pos <= |args|
    ensures r.status == Returned <==> pos + 3 <= |args|
    ensures r.status == Returned ==>
      r.pos == pos + 3 &&
      r.effects == [Load(args[pos]), Load(args[pos + 1]), Compute(op), Save(args[pos + 2])]
    ensures r.status.Exited? ==> r.status == Exited(1, TooFewArgs) && r.pos == |args|
    ensures r.status.Exited? && pos == |args| ==> r.effects == []
    ensures r.status.Exited? && pos + 1 == |args| ==> r.effects == [Load(args[pos])]
    ensures r.status.Exited? && pos + 2 == |args| ==>
      r.effects == [Load(args[pos]), Load(args[pos + 1]), Compute(op)]
  {
    if pos == |args| then Run([], pos, Exited(1, TooFewArgs))
    else
      var loaded0 := [Load(args[pos])];
      if pos + 1 == |args| then Run(loaded0, pos + 1, Exited(1, TooFewArgs))
      else
        var computed := loaded0 + [Load(args[pos + 1]), Compute(op)];
        if pos + 2 == |args| then Run(computed, pos + 2, Exited(1, TooFewArgs))
        else Run(computed + [Save(args[pos + 2])], pos + 3, Returned)
  }

  /** Runs handler `h` with the iterator at `pos`. The help handler prints
      and exits with 0 without consuming anything; the others return
      normally exactly when their arguments are all there, having consumed
      exactly those. */
  function Invoke(h: Handler, args: seq<string>, pos: nat): (r: Run)
    requires pos <= |args|
    ensures pos <= r.pos <= |args|
    ensures r.status == Returned <==> !h.ShowHelp? && pos + Arity(h) <= |args|
    ensures r.status == Returned ==> r.pos == pos + Arity(h)
    ensures r.status.Exited? ==>
      r.status == if h.ShowHelp? then Exited(0, HelpShown) else Exited(1, TooFewArgs)
    ensures h.ShowHelp? ==> r == Run([PrintHelp], pos, Exited(0, HelpShown))
  {
    match h
    case ShowHelp => Run([PrintHelp], pos, Exited(0, HelpShown))
    case SolidTest => SolidBody(args, pos)
    case BinaryOp(op) => BinaryOpBody(op, args, pos)
  }

  /** A Boolean command missing only its output name still loads both
      inputs and computes the operation before it stops: the operation runs
      before the last argument check. */
  lemma BinaryOpComputesBeforeOutputCheck(op: BoolOp, args: seq<string>, pos: nat)
    requires pos + 2 == |args|
    ensures BinaryOpBody(op, args, pos)
         == Run([Load(args[pos]), Load(args[pos + 1]), Compute(op)], |args|, Exited(1, TooFewArgs))
  {
  }

  // ---------------------------------------------------------------------
  // The registry and its lookup

  /** The first registered command called `name`, searched front to back. */
  function Lookup(cs: seq<Command>, name: string): (r: Option<nat>)
    ensures r.Some? ==> r.value < |cs| && cs[r.value].name == name
    ensures r.Some? ==> forall k :: 0 <= k < r.value ==> cs[k].name != name
    ensures r.None? <==> forall k :: 0 <= k < |cs| ==> cs[k].name != name
  {
    if cs == [] then None
    else if cs[0].name == name then Some(0)
    else
      match Lookup(cs[1..], name)
      case None => None
      case Some(k) => Some(k + 1)
  }

  /** A command is found exactly at the first index that carries its name. */
  lemma LookupFinds(cs: seq<Command>, name: string, i: nat)
    requires i < |cs| && cs[i].name == name
    requires forall k :: 0 <= k < i ==> cs[k].name != name
    ensures Lookup(cs, name) == Some(i)
  {
  }

  /** Registering one more command changes no earlier lookup; the new
      command is found only for a name nobody registered before it. */
  lemma {:induction false} LookupRegistered(cs: seq<Command>, c: Command, name: string)
    ensures Lookup(cs + [c], name)
         == if Lookup(cs, name).Some? then Lookup(cs, name)
            else if c.name == name then Some(|cs|)
            else None
  {
    var cs' := cs + [c];
    assert forall k :: 0 <= k < |cs| ==> cs'[k] == cs[k];
    match Lookup(cs, name)
    case Some(i) =>
      assert cs'[i].name == name;
    case None =>
      if c.name == name {
        assert cs'[|cs|].name == name;
      }
  }

  const HelpHelp := "-help                  show this help message"

  /** The command every registry starts with. */
  const HelpCommand := Command("help", HelpHelp, ShowHelp)

  /** In a registry that starts with `help`, the name `help` always
      dispatches to it, whatever is registered later. */
  lemma HelpAlwaysFound(cs: seq<Command>)
    requires |cs| > 0 && cs[0] == HelpCommand
    ensures Lookup(cs, "help") == Some(0)
    ensures Invoke(cs[0].body, ["-help"], 1) == Run([PrintHelp], 1, Exited(0, HelpShown))
  {
  }

  // ---------------------------------------------------------------------
  // Dispatch

  /** `s[0]` on a `std::string`: for the empty string it reads the
      terminating NUL. */
  function FirstChar(s: string): (c: char)
    ensures |s| == 0 ==> c == '\0'
    ensures |s| > 0 ==> c == s[0]
  {
    if |s| == 0 then '\0' else s[0]
  }

  /** The character test of `runCommands`. An empty token has no dash. */
  function HasDash(token: string): (b: bool)
    ensures b ==> |token| > 0
    ensures |token| > 0 ==> (b <==> token[0] == '-')
  {
    FirstChar(token) == '-'
  }

  /** `runCommands` from iterator position `pos`, as a specification.
      Because `found` starts out true, a name that matches no command is
      skipped without complaint. */
  function RunFrom(cs: seq<Command>, args: seq<string>, pos: nat): (r: Run)
    requires pos <= |args|
    ensures pos <= r.pos <= |args|
    ensures r.status == Returned ==> r.pos == |args|
    ensures r.status.Exited? ==> r.status.code == ExitCode(r.status.reason)
    decreases |args| - pos
  {
    if pos == |args| then Run([], pos, Returned)
    else
      var token := args[pos];
      if !HasDash(token) then Run([], pos, Exited(1, MissingDash(token)))
      else
        match Lookup(cs, token[1..])
        case None => RunFrom(cs, args, pos + 1)
        case Some(k) =>
          var h := Invoke(cs[k].body, args, pos + 1);
          if h.status.Exited? then h else Then(h.effects, RunFrom(cs, args, h.pos))
  }

  /** A token that does not start with a dash stops the run with status 1
      before anything else happens. */
  lemma RejectsTokenWithoutDash(cs: seq<Command>, args: seq<string>, pos: nat)
    requires pos < |args| && !HasDash(args[pos])
    ensures RunFrom(cs, args, pos) == Run([], pos, Exited(1, MissingDash(args[pos])))
  {
  }

  /** A dashed name that matches no registered command consumes that one
      token and the scan goes on as if it had not been there. */
  lemma UnknownCommandSkipped(cs: seq<Command>, args: seq<string>, pos: nat)
    requires pos < |args| && HasDash(args[pos])
    requires forall k :: 0 <= k < |cs| ==> cs[k].name != args[pos][1..]
    ensures RunFrom(cs, args, pos) == RunFrom(cs, args, pos + 1)
  {
  }

  /** The "is not recognized" exit is never taken. */
  lemma {:induction false} NeverNotRecognized(cs: seq<Command>, args: seq<string>, pos: nat)
    requires pos <= |args|
    ensures !RunFrom(cs, args, pos).status.Exited?
         || !RunFrom(cs, args, pos).status.reason.NotRecognized?
    decreases |args| - pos
  {
    if pos < |args| && HasDash(args[pos]) {
      match Lookup(cs, args[pos][1..])
      case None =>
        NeverNotRecognized(cs, args, pos + 1);
      case Some(k) =>
        var h := Invoke(cs[k].body, args, pos + 1);
        if h.status == Returned {
          NeverNotRecognized(cs, args, h.pos);
        }
    }
  }

  /** Registering a command under a name that is already taken changes no
      run: the first registered command with a name is the one that runs. */
  lemma {:induction false} FirstRegisteredWins(cs: seq<Command>, c: Command, args: seq<string>, pos: nat)
    requires Lookup(cs, c.name).Some?
    requires pos <= |args|
    ensures RunFrom(cs + [c], args, pos) == RunFrom(cs, args, pos)
    decreases |args| - pos
  {
    if pos < |args| && HasDash(args[pos]) {
      var name := args[pos][1..];
      LookupRegistered(cs, c, name);
      match Lookup(cs, name)
      case None =>
        FirstRegisteredWins(cs, c, args, pos + 1);
      case Some(k) =>
        assert (cs + [c])[k] == cs[k];
        var h := Invoke(cs[k].body, args, pos + 1);
        if h.status == Returned {
          FirstRegisteredWins(cs, c, args, h.pos);
        }
    }
  }

  // ---------------------------------------------------------------------
  // The registry object

  class CmdList {
    var commands: seq<Command>

    /** `help` is the first registered command. */
    ghost predicate Valid()
      reads this
    {
      |commands| > 0 && commands[0] == HelpCommand
    }

    /** The constructor registers `help` and nothing else. */
    constructor ()
      ensures Valid() && commands == [HelpCommand]
    {
      commands := [];
      new;
      RegCmd("help", HelpHelp, ShowHelp);
    }

    /** `regCmd`: appends one command at the end; earlier commands and
        their order are unchanged. */
    method RegCmd(name: string, helptxt: string, body: Handler)
      modifies this
      ensures commands == old(commands) + [Command(name, helptxt, body)]
      ensures old(Valid()) ==> Valid()
    {
      commands := commands + [Command(name, helptxt, body)];
    }

    /** `runCommands`: scans the arguments from `start`. A token without a
        leading dash stops the run; otherwise the dash is stripped, the
        token consumed, and the first command with that name runs with the
        shared iterator, which it advances past its own arguments. */
    method RunCommands(args: seq<string>, start: nat) returns (r: Run)
      requires start <= |args|
      ensures r == RunFrom(commands, args, start)
    {
      var pos: nat := start;
      var effects: seq<Effect> := [];
      while pos != |args|
        invariant start <= pos <= |args|
        invariant RunFrom(commands, args, start) == Then(effects, RunFrom(commands, args, pos))
        decreases |args| - pos
      {
        var argCmd := args[pos];
        if FirstChar(argCmd) != '-' {
          return Run(effects, pos, Exited(1, MissingDash(argCmd)));
        }
        ghost var at := pos;
        argCmd := argCmd[1..];
        pos := pos + 1;

        var found := true;
        var j := 0;
        while j < |commands|
          invariant 0 <= j <= |commands|
          invariant pos == at + 1
          invariant forall k :: 0 <= k < j ==> commands[k].name != argCmd
        {
          if argCmd == commands[j].name {
            assert Lookup(commands, argCmd) == Some(j);
            var h := Invoke(commands[j].body, args, pos);
            if h.status.Exited? {
              return Run(effects + h.effects, h.pos, h.status);
            }
            effects := effects + h.effects;
            pos := h.pos;
            found := true;
            break;
          }
          j := j + 1;
        }
        if !found {
          return Run(effects, pos, Exited(1, NotRecognized(argCmd)));
        }
      }
      r := Run(effects, pos, Returned);
    }
  }

  // ---------------------------------------------------------------------
  // main

  const SolidHelp :=
    "-solid in              Determine whether the input mesh represents\n" +
    "                       a solid object.  (aka. watertight) (technically\n" +
    "                         solid == closed and non-self-intersecting)"
  const UnionHelp :=
    "-union in0 in1 out     Compute the Boolean union of in0 and in1,\n" +
    "                       and output the result"
  const DiffHelp :=
    "-diff in0 in1 out      Compute the Boolean difference of in0 and in1,\n" +
    "                       and output the result"
  const IsctHelp :=
    "-isct in0 in1 out      Compute the Boolean intersection of in0 and in1,\n" +
    "                       and output the result"
  const XorHelp :=
    "-xor in0 in1 out       Compute the Boolean XOR of in0 and in1,\n" +
    "                       and output the result\n" +
    "                       (aka. the symmetric difference)"

  /** The registry `main` builds, in registration order. */
  const StandardCommands := [
    HelpCommand,
    Command("solid", SolidHelp, SolidTest),
    Command("union", UnionHelp, BinaryOp(Union)),
    Command("diff", DiffHelp, BinaryOp(Difference)),
    Command("isct", IsctHelp, BinaryOp(Intersection)),
    Command("xor", XorHelp, BinaryOp(SymmetricDifference))
  ]

  /** The whole program on `argv` (program name first), as a specification:
      fewer than two entries print a hint and exit with 0; otherwise the
      commands run from the entry after the program name, and a run that
      comes back normally ends with `main` returning 0. */
  function Cork(argv: seq<string>): (r: Run)
    ensures r.status.Exited?
    ensures r.status.code == ExitCode(r.status.reason)
  {
    if |argv| < 2 then Run([], 0, Exited(0, NoArguments))
    else
      var run := RunFrom(StandardCommands, argv, 1);
      if run.status == Returned then Run(run.effects, run.pos, Exited(0, Completed)) else run
  }

  /** `main`, with every exit returned as a status. */
  method RunCork(argv: seq<string>) returns (r: Run)
    ensures r == Cork(argv)
  {
    if |argv| < 2 {
      return Run([], 0, Exited(0, NoArguments));
    }
    var argIt := 1;

    var cmds := new CmdList();
    cmds.RegCmd("solid", SolidHelp, SolidTest);
    cmds.RegCmd("union", UnionHelp, BinaryOp(Union));
    cmds.RegCmd("diff", DiffHelp, BinaryOp(Difference));
    cmds.RegCmd("isct", IsctHelp, BinaryOp(Intersection));
    cmds.RegCmd("xor", XorHelp, BinaryOp(SymmetricDifference));
    assert cmds.commands == StandardCommands;

    r := cmds.RunCommands(argv, argIt);
    if r.status == Returned {
      r := Run(r.effects, r.pos, Exited(0, Completed));
    }
  }

  // ---------------------------------------------------------------------
  // Whole-program scenarios

  /** `cork -union a b c` loads both inputs, computes the union, saves it
      and exits with 0. */
  lemma UnionScenario()
    ensures Cork(["cork", "-union", "a.off", "b.off", "c.off"])
         == Run([Load("a.off"), Load("b.off"), Compute(Union), Save("c.off")], 5, Exited(0, Completed))
  {
    LookupFinds(StandardCommands, "union", 2);
  }

  /** `-help` prints and exits at once; commands after it never run. */
  lemma HelpScenario()
    ensures Cork(["cork", "-help", "-solid", "m.off"]) == Run([PrintHelp], 2, Exited(0, HelpShown))
  {
  }

  /** An unknown command is passed over and the next one runs. */
  lemma UnknownCommandScenario()
    ensures Cork(["cork", "-frobnicate", "-solid", "m.off"])
         == Run([Load("m.off"), ReportSolid("m.off")], 4, Exited(0, Completed))
  {
    assert Lookup(StandardCommands, "frobnicate") == None by {
      assert forall k :: 0 <= k < |StandardCommands| ==> StandardCommands[k].name != "frobnicate";
    }
    LookupFinds(StandardCommands, "solid", 1);
  }

  /** A bare file name where a command is expected exits with 1. */
  lemma MissingDashScenario()
    ensures Cork(["cork", "a.off"]) == Run([], 1, Exited(1, MissingDash("a.off")))
  {
  }
}

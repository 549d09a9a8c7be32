/**
 The adapter's entry point: the subcommand dispatcher (CscAdapt._Main), its
 exit-code mapping (CscAdapt.Main), and the handlers it routes to —
 CompileObject, TestCSC and the Linker.

 The compiler is an oracle from the argument string to what happened when it
 was launched; everything the adapter does to the file system goes through
 the Store.
 */
module CscAdapt {
  import opened Wrappers
  import opened FileStore
  import opened Linker

  /** What launching the compiler on an argument string produced. */
  datatype Launch = Exited(code: int) | NotStarted

  /** CSC.Invoke with the process plumbing abstracted away. */
  type Compiler = string -> Launch

  /** The subcommands the dispatcher recognises. */
  datatype Subcommand = CompileObjectCmd | TestCscCmd | LinkExecutableCmd | SharedLibraryCmd

  function Name(c: Subcommand): string
  {
    match c
    case CompileObjectCmd => "compile_object"
    case TestCscCmd => "test_csc"
    case LinkExecutableCmd => "link_executable"
    case SharedLibraryCmd => "shared_library"
  }

  /** Exact, case-sensitive matching of the first argument against the subcommand names. */
  function ParseSubcommand(name: string): (c: Option<Subcommand>)
    ensures c.Some? ==> Name(c.value) == name
    ensures c.None? ==> forall k: Subcommand :: Name(k) != name
  {
    if name == "compile_object" then Some(CompileObjectCmd)
    else if name == "test_csc" then Some(TestCscCmd)
    else if name == "link_executable" then Some(LinkExecutableCmd)
    else if name == "shared_library" then Some(SharedLibraryCmd)
    else None
  }

  /** Every subcommand is recognised by its own name and no other. */
  lemma ParseName(c: Subcommand)
    ensures ParseSubcommand(Name(c)) == Some(c)
  {
  }

  /** The ApplicationExceptions the adapter raises; Main turns each into exit code 1. */
  datatype AppError =
    | MissingSubcommand
    | UnknownSubcommand(name: string)
    | CompileObjectArity(count: nat)
    | TestCscArity(count: nat)

  /** How _Main ends: it returns an exit code, raises an ApplicationException, or raises anything else. */
  datatype Status = Returned(code: int) | AppFailure(error: AppError) | Unhandled(failure: Failure)

  datatype Outcome = Outcome(status: Status, store: Store)

  /** CSC.Invoke: the compiler's exit code, or the failure to start it. */
  function InvokeCompiler(compiler: Compiler, arguments: string): (s: Status)
    ensures s.Returned? <==> compiler(arguments).Exited?
    ensures s.Returned? ==> s.code == compiler(arguments).code
    ensures compiler(arguments).NotStarted? ==> s == Unhandled(CompilerNotStarted)
  {
    match compiler(arguments)
    case Exited(code) => Returned(code)
    case NotStarted => Unhandled(CompilerNotStarted)
  }

  /**
   CompileObject: with a source and an object path, writes the source path
   as the one line of the object file and returns 0; compiles nothing.
   */
  function CompileObject(args: seq<string>, store: Store, nl: NewLine): (o: Outcome)
    ensures |args| != 3 ==> o == Outcome(AppFailure(CompileObjectArity(|args|)), store)
    ensures |args| == 3 && Writable(store, args[2]) ==>
              && o.status == Returned(0)
              && o.store.denied == store.denied
              && o.store.files.Keys == store.files.Keys + {args[2]}
              && o.store.files[args[2]] == args[1] + nl.Chars()
              && forall p :: p in store.files && p != args[2] ==> o.store.files[p] == store.files[p]
    ensures |args| == 3 && !Writable(store, args[2]) ==> o.status.Unhandled? && o.store == store
  {
    if |args| != 3 then
      Outcome(AppFailure(CompileObjectArity(|args|)), store)
    else
      match WriteLine(store, args[2], args[1], nl)
      case Ok(written) => Outcome(Returned(0), written)
      case Err(f) => Outcome(Unhandled(f), store)
  }

  /** TestCSC: compiles its one argument directly, bypassing placeholders. */
  function TestCsc(args: seq<string>, store: Store, compiler: Compiler): (o: Outcome)
    ensures o.store == store
    ensures |args| != 2 ==> o.status == AppFailure(TestCscArity(|args|))
    ensures |args| == 2 && compiler(args[1]).Exited? ==> o.status == Returned(compiler(args[1]).code)
    ensures |args| == 2 && compiler(args[1]).NotStarted? ==> o.status == Unhandled(CompilerNotStarted)
  {
    if |args| != 2 then Outcome(AppFailure(TestCscArity(|args|)), store)
    else Outcome(InvokeCompiler(compiler, args[1]), store)
  }

  /** Linker: builds the argument string, then hands it to the compiler. */
  function Link(args: seq<string>, store: Store, compiler: Compiler): (o: Outcome)
    ensures o.store == store
    ensures !o.status.AppFailure?
  {
    match LinkerArguments(args, store)
    case Err(f) => Outcome(Unhandled(f), store)
    case Ok(arguments) => Outcome(InvokeCompiler(compiler, arguments), store)
  }

  /** The argument lists for which _Main raises an ApplicationException. */
  predicate HandledError(args: seq<string>)
  {
    || args == []
    || ParseSubcommand(args[0]).None?
    || (args[0] == "compile_object" && |args| != 2 && |args| != 3)
    || (args[0] == "test_csc" && |args| != 2)
  }

  /** CscAdapt._Main: routes on the exact text of the first argument. */
  function Dispatch(args: seq<string>, store: Store, nl: NewLine, compiler: Compiler): (o: Outcome)
    ensures o.status.AppFailure? <==> HandledError(args)
    ensures args == [] ==> o.status == AppFailure(MissingSubcommand)
    ensures args != [] && ParseSubcommand(args[0]).None? ==> o.status == AppFailure(UnknownSubcommand(args[0]))
    ensures o.store != store ==> |args| == 3 && args[0] == "compile_object"
  {
    if args == [] then
      Outcome(AppFailure(MissingSubcommand), store)
    else
      match ParseSubcommand(args[0])
      case None => Outcome(AppFailure(UnknownSubcommand(args[0])), store)
      case Some(CompileObjectCmd) =>
        // two arguments mean "test the adapter"
        if |args| == 2 then TestCsc(args, store, compiler) else CompileObject(args, store, nl)
      case Some(TestCscCmd) => TestCsc(args, store, compiler)
      case Some(LinkExecutableCmd) => Link(args, store, compiler)
      case Some(SharedLibraryCmd) => Link(args, store, compiler)
  }

  /** How the adapter process ends: with an exit code, or killed by an exception Main does not catch. */
  datatype Exit = ExitCode(code: int) | Crashed(failure: Failure)

  datatype Termination = Termination(exit: Exit, store: Store)

  /**
   CscAdapt.Main: an ApplicationException becomes exit code 1 and the store
   is left as it was; any other failure escapes.
   */
  function Run(args: seq<string>, store: Store, nl: NewLine, compiler: Compiler): (t: Termination)
    ensures HandledError(args) ==> t == Termination(ExitCode(1), store)
    ensures Dispatch(args, store, nl, compiler).status.Returned? ==>
              t.exit == ExitCode(Dispatch(args, store, nl, compiler).status.code)
    ensures Dispatch(args, store, nl, compiler).status.Unhandled? ==>
              t.exit == Crashed(Dispatch(args, store, nl, compiler).status.failure)
    ensures t.store == Dispatch(args, store, nl, compiler).store
  {
    var o := Dispatch(args, store, nl, compiler);
    match o.status
    case Returned(code) => Termination(ExitCode(code), o.store)
    case AppFailure(_) => Termination(ExitCode(1), o.store)
    case Unhandled(f) => Termination(Crashed(f), o.store)
  }
}

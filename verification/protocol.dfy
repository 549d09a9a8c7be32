/**
 The deferred-compilation protocol seen from outside the process: what a
 build system observes when it runs the adapter's subcommands one after
 another against the same file system.
 */
module Protocol {
  import opened Wrappers
  import opened Text
  import opened FileStore
  import opened Linker
  import opened CscAdapt

  /** How the process ends when the compiler was launched. */
  function ExitOf(launch: Launch): Exit
  {
    match launch
    case Exited(code) => ExitCode(code)
    case NotStarted => Crashed(CompilerNotStarted)
  }

  /** `compile_object SOURCE OBJECT` exits 0 and changes exactly one file, to SOURCE plus a line terminator. */
  lemma CompileObjectRun(source: string, placeholder: string, store: Store, nl: NewLine, compiler: Compiler)
    ensures Writable(store, placeholder) ==>
              Run(["compile_object", source, placeholder], store, nl, compiler)
              == Termination(ExitCode(0), store.(files := store.files[placeholder := source + nl.Chars()]))
    ensures !Writable(store, placeholder) ==>
              Run(["compile_object", source, placeholder], store, nl, compiler)
              == Termination(Crashed(if placeholder == "" then InvalidPath else AccessDenied(placeholder)), store)
  {
    var args := ["compile_object", source, placeholder];
    assert ParseSubcommand(args[0]) == Some(CompileObjectCmd);
  }

  /** `compile_object` with one argument, and `test_csc` with one, compile it directly and exit as the compiler does. */
  lemma TestModeRun(args: seq<string>, store: Store, nl: NewLine, compiler: Compiler)
    requires |args| == 2 && (args[0] == "compile_object" || args[0] == "test_csc")
    ensures Run(args, store, nl, compiler) == Termination(ExitOf(compiler(args[1])), store)
  {
    assert ParseSubcommand(args[0]).Some?;
  }

  /**
   Exit code 1 without touching the store, for no arguments, an unknown
   subcommand, `compile_object` with neither one nor two arguments, and
   `test_csc` with other than one.
   */
  lemma HandledErrorsExitOne(args: seq<string>, store: Store, nl: NewLine, compiler: Compiler)
    requires || args == []
             || (args[0] != "compile_object" && args[0] != "test_csc" && args[0] != "link_executable" && args[0] != "shared_library")
             || (args[0] == "compile_object" && (|args| == 1 || |args| >= 4))
             || (args[0] == "test_csc" && |args| != 2)
    ensures Run(args, store, nl, compiler) == Termination(ExitCode(1), store)
  {
    assert HandledError(args);
  }

  /**
   The source paths that survive a write and a backtrace: Trim would strip
   white space at either end, and the reader would take a leading U+FEFF for
   a byte-order mark.
   */
  predicate BacktraceSafe(source: string)
  {
    IsTrimmed(source) && (source == [] || source[0] != ByteOrderMark)
  }

  /**
   The source path written by `compile_object` comes back from
   BackTraceSourceFile exactly when it is BacktraceSafe: Trim removes the line
   terminator, and nothing else may be lost on the way.
   */
  lemma BacktraceRoundTrip(source: string, placeholder: string, store: Store, nl: NewLine, compiler: Compiler)
    requires Writable(store, placeholder)
    ensures BackTraceSourceFile(Run(["compile_object", source, placeholder], store, nl, compiler).store, placeholder) == Ok(source)
            <==> BacktraceSafe(source)
  {
    CompileObjectRun(source, placeholder, store, nl, compiler);
    ByteOrderMarkOfLine(source, nl);
    if BacktraceSafe(source) {
      TrimDropsTrailingWhiteSpace(source, nl.Chars());
    } else if IsTrimmed(source) {
      TrimBeforeWhiteSpace(source[1..], nl.Chars());
    }
  }

  /** Running the same `compile_object` twice leaves the same files as running it once. */
  lemma CompileObjectIdempotent(source: string, placeholder: string, store: Store, nl: NewLine, compiler: Compiler)
    ensures var once := Run(["compile_object", source, placeholder], store, nl, compiler);
            Run(["compile_object", source, placeholder], once.store, nl, compiler) == once
  {
    var once := Run(["compile_object", source, placeholder], store, nl, compiler);
    CompileObjectRun(source, placeholder, store, nl, compiler);
    CompileObjectRun(source, placeholder, once.store, nl, compiler);
    if Writable(store, placeholder) {
      assert once.store.files[placeholder := source + nl.Chars()] == once.store.files;
    }
  }

  /**
   `link_executable` and `shared_library` never write, and never exit 1 on
   their own account: they exit as the compiler does on the argument string
   the Linker builds, or crash with the Linker's failure.
   */
  lemma LinkRun(args: seq<string>, store: Store, nl: NewLine, compiler: Compiler)
    requires args != [] && (args[0] == "link_executable" || args[0] == "shared_library")
    ensures Run(args, store, nl, compiler).store == store
    ensures LinkerArguments(args, store).Ok? ==>
              Run(args, store, nl, compiler).exit == ExitOf(compiler(LinkerArguments(args, store).value))
    ensures LinkerArguments(args, store).Err? ==>
              Run(args, store, nl, compiler).exit == Crashed(LinkerArguments(args, store).error)
  {
    assert ParseSubcommand(args[0]).Some?;
  }

  /**
   What the Linker builds, in terms of the zones: the flag zone and then the
   trimmed contents of each placeholder; a missing placeholder is a crash
   naming the first one, never exit code 1.
   */
  lemma LinkerArgumentsByZones(args: seq<string>, store: Store)
    requires args != []
    ensures var objects := ObjectZone(args[1..]);
            FirstUnreadable(objects, store) == |objects| ==>
              LinkerArguments(args, store) == Ok(SpaceTerminated(FlagZone(args[1..]) + ResolveAll(objects, store).value))
    ensures var objects := ObjectZone(args[1..]);
            FirstUnreadable(objects, store) < |objects| ==>
              LinkerArguments(args, store) == Err(ReadFailure(objects[FirstUnreadable(objects, store)]))
  {
    ScanFollowsZones(args[1..], store);
  }

  /** The store after `compile_object sources[i] objects[i]` has run for each i in turn. */
  function CompileAll(sources: seq<string>, objects: seq<string>, store: Store, nl: NewLine, compiler: Compiler): Store
    requires |sources| == |objects|
    decreases |sources|
  {
    if sources == [] then store
    else
      var next := Run(["compile_object", sources[0], objects[0]], store, nl, compiler).store;
      CompileAll(sources[1..], objects[1..], next, nl, compiler)
  }

  predicate Distinct(paths: seq<string>)
  {
    forall i, j :: 0 <= i < j < |paths| ==> paths[i] != paths[j]
  }

  /**
   After a series of `compile_object` runs to distinct placeholder paths, each
   placeholder file holds its own source line, and every other file is as it was.
   */
  lemma {:induction false} CompileAllRecords(sources: seq<string>, objects: seq<string>, store: Store, nl: NewLine, compiler: Compiler)
    requires |sources| == |objects|
    requires forall i :: 0 <= i < |objects| ==> Writable(store, objects[i])
    requires Distinct(objects)
    ensures CompileAll(sources, objects, store, nl, compiler).denied == store.denied
    ensures forall i :: 0 <= i < |objects| ==>
              && objects[i] in CompileAll(sources, objects, store, nl, compiler).files
              && CompileAll(sources, objects, store, nl, compiler).files[objects[i]] == sources[i] + nl.Chars()
    ensures forall p :: p !in objects ==>
              && (p in CompileAll(sources, objects, store, nl, compiler).files <==> p in store.files)
              && (p in store.files ==> CompileAll(sources, objects, store, nl, compiler).files[p] == store.files[p])
  {
    if sources != [] {
      CompileObjectRun(sources[0], objects[0], store, nl, compiler);
      var next := Run(["compile_object", sources[0], objects[0]], store, nl, compiler).store;
      assert next.denied == store.denied;
      var os := objects[1..];
      assert forall i :: 0 <= i < |os| ==> os[i] == objects[i + 1];
      assert Distinct(os);
      CompileAllRecords(sources[1..], os, next, nl, compiler);
      var final := CompileAll(sources, objects, store, nl, compiler);
      assert final == CompileAll(sources[1..], os, next, nl, compiler);
      assert objects[0] !in os;
      forall i | 0 <= i < |objects|
        ensures objects[i] in final.files && final.files[objects[i]] == sources[i] + nl.Chars()
      {
        if i > 0 {
          assert objects[i] == os[i - 1];
          assert sources[i] == sources[1..][i - 1];
        }
      }
      forall p | p !in objects
        ensures (p in final.files <==> p in store.files) && (p in store.files ==> final.files[p] == store.files[p])
      {
        assert p != objects[0];
        assert p !in os;
      }
    }
  }

  /** Placeholders that hold BacktraceSafe source lines resolve to exactly those sources. */
  lemma ResolveRecorded(sources: seq<string>, objects: seq<string>, store: Store, nl: NewLine)
    requires |sources| == |objects|
    requires forall i :: 0 <= i < |objects| ==>
               objects[i] != "" && objects[i] in store.files && store.files[objects[i]] == sources[i] + nl.Chars()
    requires forall i :: 0 <= i < |sources| ==> BacktraceSafe(sources[i])
    ensures ResolveAll(objects, store) == Ok(sources)
  {
    var resolved := ResolveAll(objects, store);
    assert resolved.Ok?;
    ResolvedContents(objects, store);
    forall i | 0 <= i < |objects|
      ensures resolved.value[i] == sources[i]
    {
      ByteOrderMarkOfLine(sources[i], nl);
      TrimDropsTrailingWhiteSpace(sources[i], nl.Chars());
    }
    assert resolved.value == sources;
  }

  lemma LinkOperands(link: string, flags: seq<string>, objects: seq<string>)
    ensures Operands([link] + flags + ["---"] + objects) == flags + ["---"] + objects
  {
    assert [link] + flags + ["---"] + objects == [link] + (flags + ["---"] + objects);
  }

  /** Flags, `---`, then placeholders that resolve to `sources`: the flags and then the sources. */
  lemma FlagsThenPlaceholders(flags: seq<string>, sources: seq<string>, objects: seq<string>, store: Store)
    requires NoSentinel(flags) && NoSentinel(objects)
    requires ResolveAll(objects, store) == Ok(sources)
    ensures Scan(flags + ["---"] + objects, false, store) == Ok(flags + sources)
  {
    ScanFollowsZones(flags + ["---"] + objects, store);
    LatchIsOneWay(flags, "---", objects, store);
    NonSentinelsOfNoSentinel(objects);
  }

  /**
   The whole protocol: compile each source to its own placeholder, then
   link with the flags and `---` followed by the placeholders. The compiler
   receives the flags and then the original sources, in order, each followed
   by one space; the link exits as the compiler does.
   */
  lemma DeferredCompilation(link: string, flags: seq<string>, sources: seq<string>, objects: seq<string>,
                            store: Store, nl: NewLine, compiler: Compiler)
    requires link == "link_executable" || link == "shared_library"
    requires |sources| == |objects|
    requires NoSentinel(flags) && NoSentinel(objects)
    requires forall i :: 0 <= i < |objects| ==> Writable(store, objects[i])
    requires forall i :: 0 <= i < |sources| ==> BacktraceSafe(sources[i])
    requires Distinct(objects)
    ensures var built := CompileAll(sources, objects, store, nl, compiler);
            LinkerArguments([link] + flags + ["---"] + objects, built) == Ok(SpaceTerminated(flags + sources))
    ensures var built := CompileAll(sources, objects, store, nl, compiler);
            Run([link] + flags + ["---"] + objects, built, nl, compiler)
            == Termination(ExitOf(compiler(SpaceTerminated(flags + sources))), built)
  {
    var built := CompileAll(sources, objects, store, nl, compiler);
    CompileAllRecords(sources, objects, store, nl, compiler);
    ResolveRecorded(sources, objects, built, nl);
    FlagsThenPlaceholders(flags, sources, objects, built);
    LinkOperands(link, flags, objects);
    LinkRun([link] + flags + ["---"] + objects, built, nl, compiler);
  }
}

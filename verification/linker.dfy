/**
 The Linker: turns the arguments of `link_executable` / `shared_library` into
 the one argument string handed to the compiler. Tokens before the first
 `---`-prefixed sentinel are flags and pass through; every later token that is
 not itself a sentinel names a placeholder object file and is replaced by the
 source path recorded in it.

 Two descriptions are given and proved equal: `Scan`, the argument loop as a
 state machine with its one-way latch, and `LinkItems`, the split into a flag
 zone and an object zone at the first sentinel.
 */
module Linker {
  import opened Wrappers
  import opened Text
  import opened FileStore

  /** The marker that switches the loop from flags to placeholder paths. */
  predicate IsSentinel(token: string)
    ensures IsSentinel(token) <==> |token| >= 3 && token[..3] == "---"
  {
    StartsWith(token, "---")
  }

  predicate NoSentinel(tokens: seq<string>)
  {
    forall i :: 0 <= i < |tokens| ==> !IsSentinel(tokens[i])
  }

  /** Linker.BackTraceSourceFile: the trimmed contents of a placeholder object file. */
  function BackTraceSourceFile(store: Store, path: string): (r: Result<string, Failure>)
    ensures r.Ok? <==> Readable(store, path)
    ensures r.Ok? ==> IsTrimmed(r.value) && r.value == Trim(WithoutByteOrderMark(store.files[path]))
    ensures r.Err? ==> r.error == ReadFailure(path)
  {
    match ReadToEnd(store, path)
    case Ok(contents) => Ok(Trim(contents))
    case Err(f) => Err(f)
  }

  /** `items` in front of whatever `rest` yields; a failure stays a failure. */
  function Prefixed(items: seq<string>, rest: Result<seq<string>, Failure>): Result<seq<string>, Failure>
  {
    match rest
    case Ok(more) => Ok(items + more)
    case Err(f) => Err(f)
  }

  /** The argument string: each item followed by one space. */
  function Rendered(items: Result<seq<string>, Failure>): Result<string, Failure>
  {
    match items
    case Ok(xs) => Ok(SpaceTerminated(xs))
    case Err(f) => Err(f)
  }

  /**
   The constructor's loop over `tokens` as a state machine. `parsingObjects`
   is the latch: a sentinel sets it and nothing clears it. Yields the items
   appended, in order, or the failure of the first placeholder that cannot be
   read.
   */
  function Scan(tokens: seq<string>, parsingObjects: bool, store: Store): (r: Result<seq<string>, Failure>)
    ensures r.Ok? ==> |r.value| == |NonSentinels(tokens)|
  {
    if tokens == [] then Ok([])
    else
      var a := tokens[0];
      if IsSentinel(a) then
        Scan(tokens[1..], true, store)
      else if parsingObjects then
        match BackTraceSourceFile(store, a)
        case Err(f) => Err(f)
        case Ok(src) => Prefixed([src], Scan(tokens[1..], true, store))
      else
        Prefixed([a], Scan(tokens[1..], false, store))
  }

  /** The tokens the loop visits: `args` without the subcommand. */
  function Operands(args: seq<string>): seq<string>
  {
    if args == [] then [] else args[1..]
  }

  /** Linker's csc_args: the string the constructor builds, or what it raises. */
  function LinkerArguments(args: seq<string>, store: Store): (r: Result<string, Failure>)
    ensures r.Ok? ==> (r.value == [] <==> NonSentinels(Operands(args)) == [])
    ensures r.Ok? && r.value != [] ==> r.value[|r.value| - 1] == ' '
  {
    var items := Scan(Operands(args), false, store);
    if items.Ok? && items.value != [] then
      SpaceTerminatedShape(items.value);
      Rendered(items)
    else
      Rendered(items)
  }

  // ----- The reference description: two zones split at the first sentinel -----

  /** The position of the first sentinel, or |tokens| if there is none. */
  function FirstSentinel(tokens: seq<string>): (k: nat)
    ensures k <= |tokens|
    ensures NoSentinel(tokens[..k])
    ensures k < |tokens| ==> IsSentinel(tokens[k])
  {
    if tokens == [] || IsSentinel(tokens[0]) then 0
    else
      var k := 1 + FirstSentinel(tokens[1..]);
      assert tokens[..k] == [tokens[0]] + tokens[1..][..k - 1];
      k
  }

  /** The tokens that are not sentinels, in their order. */
  function NonSentinels(tokens: seq<string>): (r: seq<string>)
    ensures NoSentinel(r)
    ensures |r| <= |tokens|
  {
    if tokens == [] then []
    else if IsSentinel(tokens[0]) then NonSentinels(tokens[1..])
    else [tokens[0]] + NonSentinels(tokens[1..])
  }

  /** Flags: every token before the first sentinel. */
  function FlagZone(tokens: seq<string>): seq<string>
  {
    tokens[..FirstSentinel(tokens)]
  }

  /** Placeholder paths: every non-sentinel token after the first sentinel. */
  function ObjectZone(tokens: seq<string>): seq<string>
  {
    var k := FirstSentinel(tokens);
    if k == |tokens| then [] else NonSentinels(tokens[k + 1..])
  }

  /** The position of the first placeholder that cannot be read, or |paths| if all can. */
  function FirstUnreadable(paths: seq<string>, store: Store): (k: nat)
    ensures k <= |paths|
    ensures forall i :: 0 <= i < k ==> Readable(store, paths[i])
    ensures k < |paths| ==> !Readable(store, paths[k])
  {
    if paths == [] || !Readable(store, paths[0]) then 0
    else 1 + FirstUnreadable(paths[1..], store)
  }

  /**
   Resolves each placeholder in order. Succeeds exactly when every one is
   readable, with one result per placeholder; otherwise fails as the first
   unreadable one does.
   */
  function ResolveAll(paths: seq<string>, store: Store): (r: Result<seq<string>, Failure>)
    ensures r.Ok? <==> FirstUnreadable(paths, store) == |paths|
    ensures r.Ok? ==> |r.value| == |paths|
    ensures r.Err? ==> r.error == ReadFailure(paths[FirstUnreadable(paths, store)])
  {
    if paths == [] then Ok([])
    else
      match BackTraceSourceFile(store, paths[0])
      case Err(f) => Err(f)
      case Ok(src) =>
        var tail := paths[1..];
        assert FirstUnreadable(paths, store) == 1 + FirstUnreadable(tail, store);
        match ResolveAll(tail, store)
        case Err(f) =>
          assert paths[FirstUnreadable(paths, store)] == tail[FirstUnreadable(tail, store)];
          Err(f)
        case Ok(srcs) => Ok([src] + srcs)
  }

  /** Each resolved item is what BackTraceSourceFile gives for the placeholder at the same position. */
  lemma {:induction false} ResolvedContents(paths: seq<string>, store: Store)
    requires ResolveAll(paths, store).Ok?
    ensures forall i :: 0 <= i < |paths| ==> Ok(ResolveAll(paths, store).value[i]) == BackTraceSourceFile(store, paths[i])
  {
    if paths != [] {
      var tail := paths[1..];
      ResolvedContents(tail, store);
      var all := ResolveAll(paths, store).value;
      assert all == [BackTraceSourceFile(store, paths[0]).value] + ResolveAll(tail, store).value;
      forall i | 0 <= i < |paths|
        ensures Ok(all[i]) == BackTraceSourceFile(store, paths[i])
      {
        if i > 0 {
          assert paths[i] == tail[i - 1];
        }
      }
    }
  }

  /** The items of the argument string: the flags, then the resolved placeholders. */
  function LinkItems(tokens: seq<string>, store: Store): Result<seq<string>, Failure>
  {
    Prefixed(FlagZone(tokens), ResolveAll(ObjectZone(tokens), store))
  }

  // ----- The state machine agrees with the zones -----

  lemma PrefixedAssoc(a: seq<string>, b: seq<string>, r: Result<seq<string>, Failure>)
    ensures Prefixed(a, Prefixed(b, r)) == Prefixed(a + b, r)
  {
    if r.Ok? {
      assert a + (b + r.value) == (a + b) + r.value;
    }
  }

  /** Once latched, the loop resolves every non-sentinel token and drops every sentinel. */
  lemma {:induction false} ScanLatched(tokens: seq<string>, store: Store)
    ensures Scan(tokens, true, store) == ResolveAll(NonSentinels(tokens), store)
  {
    if tokens != [] {
      ScanLatched(tokens[1..], store);
      if !IsSentinel(tokens[0]) {
        var ns := NonSentinels(tokens);
        assert ns[0] == tokens[0] && ns[1..] == NonSentinels(tokens[1..]);
      }
    }
  }

  /** The loop, started unlatched, yields exactly the flag zone followed by the resolved object zone. */
  lemma {:induction false} ScanFollowsZones(tokens: seq<string>, store: Store)
    ensures Scan(tokens, false, store) == LinkItems(tokens, store)
  {
    if tokens == [] {
      assert FlagZone(tokens) == [] && ObjectZone(tokens) == [];
      var none: seq<string> := [];
      assert none + none == none;
    } else if IsSentinel(tokens[0]) {
      ScanLatched(tokens[1..], store);
      assert FlagZone(tokens) == [];
      var r := ResolveAll(ObjectZone(tokens), store);
      assert Prefixed([], r) == r by {
        if r.Ok? {
          assert [] + r.value == r.value;
        }
      }
    } else {
      var tail := tokens[1..];
      ScanFollowsZones(tail, store);
      assert FirstSentinel(tokens) == 1 + FirstSentinel(tail);
      assert FlagZone(tokens) == [tokens[0]] + FlagZone(tail);
      assert ObjectZone(tokens) == ObjectZone(tail);
      PrefixedAssoc([tokens[0]], FlagZone(tail), ResolveAll(ObjectZone(tail), store));
    }
  }

  // ----- Properties of the zones -----

  lemma {:induction false} NonSentinelsAppend(a: seq<string>, b: seq<string>)
    ensures NonSentinels(a + b) == NonSentinels(a) + NonSentinels(b)
  {
    if a == [] {
      assert a + b == b;
    } else {
      assert (a + b)[1..] == a[1..] + b;
      NonSentinelsAppend(a[1..], b);
    }
  }

  lemma {:induction false} NonSentinelsOfNoSentinel(tokens: seq<string>)
    requires NoSentinel(tokens)
    ensures NonSentinels(tokens) == tokens
  {
    if tokens != [] {
      assert NoSentinel(tokens[1..]) by {
        forall i | 0 <= i < |tokens[1..]|
          ensures !IsSentinel(tokens[1..][i])
        {
          assert tokens[1..][i] == tokens[i + 1];
        }
      }
      NonSentinelsOfNoSentinel(tokens[1..]);
    }
  }

  /**
   Together the two zones are exactly the non-sentinel tokens, in input
   order: sentinels are dropped, nothing is reordered or merged.
   */
  lemma {:induction false} ZonesPartitionNonSentinels(tokens: seq<string>)
    ensures NonSentinels(tokens) == FlagZone(tokens) + ObjectZone(tokens)
  {
    var k := FirstSentinel(tokens);
    var flags := tokens[..k];
    NonSentinelsOfNoSentinel(flags);
    if k == |tokens| {
      assert flags == tokens;
    } else {
      var rest := tokens[k + 1..];
      var tail := [tokens[k]] + rest;
      assert tokens == flags + tail;
      NonSentinelsAppend(flags, tail);
      assert tail[1..] == rest;
      assert NonSentinels(tail) == NonSentinels(rest);
    }
  }


  /** One argument-string item per non-sentinel token: no token is lost or deduplicated. */
  lemma LinkItemCount(tokens: seq<string>, store: Store)
    requires LinkItems(tokens, store).Ok?
    ensures |LinkItems(tokens, store).value| == |NonSentinels(tokens)|
  {
    ZonesPartitionNonSentinels(tokens);
  }

  /**
   The latch: with the first sentinel after `flags`, the flags pass through
   and every non-sentinel token of `rest` is resolved, whatever further
   sentinels `rest` holds.
   */
  lemma LatchIsOneWay(flags: seq<string>, sentinel: string, rest: seq<string>, store: Store)
    requires NoSentinel(flags) && IsSentinel(sentinel)
    ensures LinkItems(flags + [sentinel] + rest, store) == Prefixed(flags, ResolveAll(NonSentinels(rest), store))
  {
    var tokens := flags + [sentinel] + rest;
    var k := FirstSentinel(tokens);
    assert tokens[|flags|] == sentinel;
    assert k == |flags|;
    assert tokens[..k] == flags;
    assert tokens[k + 1..] == rest;
  }

  /** Without a sentinel the loop reads no placeholder: its output is the tokens themselves, for any store. */
  lemma {:induction false} NoSentinelNoReads(tokens: seq<string>, store: Store)
    requires NoSentinel(tokens)
    ensures Scan(tokens, false, store) == Ok(tokens)
  {
    if tokens != [] {
      assert !IsSentinel(tokens[0]);
      assert NoSentinel(tokens[1..]) by {
        forall i | 0 <= i < |tokens[1..]|
          ensures !IsSentinel(tokens[1..][i])
        {
          assert tokens[1..][i] == tokens[i + 1];
        }
      }
      NoSentinelNoReads(tokens[1..], store);
      assert [tokens[0]] + tokens[1..] == tokens;
    }
  }

  /** Without a sentinel, the string handed to the compiler is the operands, each followed by one space. */
  lemma NoSentinelString(args: seq<string>, store: Store)
    requires args != [] && NoSentinel(args[1..])
    ensures LinkerArguments(args, store) == Ok(SpaceTerminated(args[1..]))
  {
    NoSentinelNoReads(args[1..], store);
  }

  /** ResolveAll depends only on the placeholders it is given. */
  lemma {:induction false} ResolveAllFrame(paths: seq<string>, s1: Store, s2: Store)
    requires forall i :: 0 <= i < |paths| ==> Readable(s1, paths[i]) == Readable(s2, paths[i])
    requires forall i :: 0 <= i < |paths| && Readable(s1, paths[i]) && Readable(s2, paths[i]) ==> s1.files[paths[i]] == s2.files[paths[i]]
    ensures ResolveAll(paths, s1) == ResolveAll(paths, s2)
  {
    if paths != [] {
      ResolveAllFrame(paths[1..], s1, s2);
    }
  }

  /** The Linker reads only the object zone: stores that agree there give the same result. */
  lemma LinkReadsOnlyObjectZone(tokens: seq<string>, s1: Store, s2: Store)
    requires forall p :: p in ObjectZone(tokens) ==> Readable(s1, p) == Readable(s2, p)
    requires forall p :: p in ObjectZone(tokens) && Readable(s1, p) && Readable(s2, p) ==> s1.files[p] == s2.files[p]
    ensures Scan(tokens, false, s1) == Scan(tokens, false, s2)
  {
    ScanFollowsZones(tokens, s1);
    ScanFollowsZones(tokens, s2);
    ResolveAllFrame(ObjectZone(tokens), s1, s2);
  }

  // ----- One iteration of the loop, for BuildArguments -----

  lemma SentinelStep(items: seq<string>, a: string, tail: seq<string>, parsingObjects: bool, store: Store)
    requires IsSentinel(a)
    ensures Prefixed(items, Scan([a] + tail, parsingObjects, store)) == Prefixed(items, Scan(tail, true, store))
  {
    assert ([a] + tail)[1..] == tail;
  }

  lemma FlagStep(items: seq<string>, a: string, tail: seq<string>, store: Store)
    requires !IsSentinel(a)
    ensures Prefixed(items, Scan([a] + tail, false, store)) == Prefixed(items + [a], Scan(tail, false, store))
  {
    assert ([a] + tail)[1..] == tail;
    PrefixedAssoc(items, [a], Scan(tail, false, store));
  }

  lemma ObjectStep(items: seq<string>, a: string, tail: seq<string>, store: Store)
    requires !IsSentinel(a)
    ensures BackTraceSourceFile(store, a).Err? ==>
              Prefixed(items, Scan([a] + tail, true, store)) == Err(BackTraceSourceFile(store, a).error)
    ensures BackTraceSourceFile(store, a).Ok? ==>
              Prefixed(items, Scan([a] + tail, true, store))
              == Prefixed(items + [BackTraceSourceFile(store, a).value], Scan(tail, true, store))
  {
    assert ([a] + tail)[1..] == tail;
    if BackTraceSourceFile(store, a).Ok? {
      PrefixedAssoc(items, [BackTraceSourceFile(store, a).value], Scan(tail, true, store));
    }
  }

  /**
   The Linker constructor as written: one pass over the arguments after the
   subcommand, appending to a string builder. Its result is the argument
   string of the flag zone and the resolved object zone, or the failure of
   the first unreadable placeholder.
   */
  method BuildArguments(args: seq<string>, store: Store) returns (r: Result<string, Failure>)
    ensures r == Rendered(LinkItems(Operands(args), store))
    ensures r == LinkerArguments(args, store)
  {
    if |args| == 0 {
      ScanFollowsZones(Operands(args), store);
      return Ok("");
    }
    var built := "";
    var parsingObjects := false;
    ghost var items: seq<string> := [];
    var i := 1;
    assert Prefixed(items, Scan(args[i..], parsingObjects, store)) == Scan(args[1..], false, store) by {
      var r := Scan(args[1..], false, store);
      if r.Ok? {
        assert [] + r.value == r.value;
      }
    }
    while i < |args|
      invariant 1 <= i <= |args|
      invariant built == SpaceTerminated(items)
      invariant Scan(args[1..], false, store) == Prefixed(items, Scan(args[i..], parsingObjects, store))
    {
      var a := args[i];
      assert args[i..] == [a] + args[i + 1..];
      if StartsWith(a, "---") {
        SentinelStep(items, a, args[i + 1..], parsingObjects, store);
        parsingObjects := true;
      } else if parsingObjects {
        ObjectStep(items, a, args[i + 1..], store);
        var src := BackTraceSourceFile(store, a);
        if src.Err? {
          ScanFollowsZones(args[1..], store);
          return Err(src.error);
        }
        SpaceTerminatedSnoc(items, src.value);
        built := built + src.value + " ";
        items := items + [src.value];
      } else {
        FlagStep(items, a, args[i + 1..], store);
        SpaceTerminatedSnoc(items, a);
        built := built + a + " ";
        items := items + [a];
      }
      i := i + 1;
    }
    assert items + [] == items;
    ScanFollowsZones(args[1..], store);
    r := Ok(built);
  }
}

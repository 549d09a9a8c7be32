/**
 The file system as the adapter sees it: placeholder object files are written
 with StreamWriter.WriteLine and read back with StreamReader.ReadToEnd. It is
 the only state that survives from one adapter invocation to the next.
 */
module FileStore {
  import opened Wrappers
  import opened Text

  /** Environment.NewLine, the terminator WriteLine appends: "\n" on Unix, "\r\n" on Windows. */
  datatype NewLine = Lf | CrLf {
    function Chars(): (s: string)
      ensures s != [] && AllWhiteSpace(s)
    {
      match this
      case Lf => "\n"
      case CrLf => "\r\n"
    }
  }

  /** The failures that are not ApplicationException and so escape the adapter's handler. */
  datatype Failure =
    | InvalidPath               // ArgumentException: the empty path
    | FileNotFound(path: string)  // the placeholder to read does not exist
    | AccessDenied(path: string)  // the object path cannot be opened for writing
    | CompilerNotStarted        // the compiler executable could not be launched

  /** File contents by path, and the paths that cannot be opened for writing. */
  datatype Store = Store(files: map<string, string>, denied: set<string>)

  predicate Readable(store: Store, path: string)
  {
    path != "" && path in store.files
  }

  predicate Writable(store: Store, path: string)
  {
    path != "" && path !in store.denied
  }

  /** The failure StreamReader raises for a path it cannot open. */
  function ReadFailure(path: string): Failure
  {
    if path == "" then InvalidPath else FileNotFound(path)
  }

  /** U+FEFF: UTF-8 encodes it as EF BB BF, which StreamReader takes for a byte-order mark. */
  const ByteOrderMark: char := '\U{FEFF}'

  /**
   The characters StreamReader decodes from a file that holds `contents` in
   UTF-8: a leading U+FEFF is consumed as a byte-order mark, nothing else changes.
   */
  function WithoutByteOrderMark(contents: string): (r: string)
    ensures contents != [] && contents[0] == ByteOrderMark ==> [ByteOrderMark] + r == contents
    ensures contents == [] || contents[0] != ByteOrderMark ==> r == contents
  {
    if contents != [] && contents[0] == ByteOrderMark then contents[1..] else contents
  }

  /** new StreamReader(path).ReadToEnd(): the decoded contents of an existing file. */
  function ReadToEnd(store: Store, path: string): (r: Result<string, Failure>)
    ensures r.Ok? <==> Readable(store, path)
    ensures r.Ok? ==> r.value == WithoutByteOrderMark(store.files[path])
    ensures r.Err? ==> r.error == ReadFailure(path)
  {
    if path == "" then Err(InvalidPath)
    else if path !in store.files then Err(FileNotFound(path))
    else Ok(WithoutByteOrderMark(store.files[path]))
  }

  /**
   new StreamWriter(path).WriteLine(line): creates or truncates the file and
   leaves exactly `line` plus the terminator in it; no other file changes.
   */
  function WriteLine(store: Store, path: string, line: string, nl: NewLine): (r: Result<Store, Failure>)
    ensures r.Ok? <==> Writable(store, path)
    ensures r.Err? ==> r.error == (if path == "" then InvalidPath else AccessDenied(path))
    ensures r.Ok? ==> r.value.denied == store.denied
    ensures r.Ok? ==> r.value.files.Keys == store.files.Keys + {path}
    ensures r.Ok? ==> r.value.files[path] == line + nl.Chars()
    ensures r.Ok? ==> forall p :: p in store.files && p != path ==> r.value.files[p] == store.files[p]
  {
    if path == "" then Err(InvalidPath)
    else if path in store.denied then Err(AccessDenied(path))
    else Ok(store.(files := store.files[path := line + nl.Chars()]))
  }

  /** The terminator never starts with U+FEFF, so only the line itself can lose one. */
  lemma ByteOrderMarkOfLine(line: string, nl: NewLine)
    ensures WithoutByteOrderMark(line + nl.Chars()) == WithoutByteOrderMark(line) + nl.Chars()
  {
    var s := line + nl.Chars();
    if line == [] {
      assert s == nl.Chars();
    } else {
      assert s[0] == line[0];
      if line[0] == ByteOrderMark {
        assert s[1..] == line[1..] + nl.Chars();
      }
    }
  }

  /**
   What WriteLine stores, ReadToEnd returns: the line and its terminator,
   less a leading U+FEFF that the reader takes for a byte-order mark.
   */
  lemma WriteThenRead(store: Store, path: string, line: string, nl: NewLine)
    requires Writable(store, path)
    ensures WriteLine(store, path, line, nl).Ok?
    ensures ReadToEnd(WriteLine(store, path, line, nl).value, path) == Ok(WithoutByteOrderMark(line) + nl.Chars())
    ensures line == [] || line[0] != ByteOrderMark ==>
              ReadToEnd(WriteLine(store, path, line, nl).value, path) == Ok(line + nl.Chars())
  {
    ByteOrderMarkOfLine(line, nl);
  }
}

/** The agent's file tools (agents/tools/file_tools.py): `file_read` reads a
    file, optionally only its first lines, or lists a directory; `file_write`
    writes a whole file or replaces every occurrence of a text in it.

    The disk is a map from path to entry, owned by a `FileSystem` object
    whose `store` the writing operations update.  Glob matching is outside
    the model: a listing is given the matched paths, in sorted order. */
module FileTools {
  import opened Wrappers
  import opened Text

  datatype Entry = File(content: string) | Directory

  type Store = map<string, Entry>

  function Min(a: int, b: int): int
  {
    if a < b then a else b
  }

  function UnsupportedOperation(operation: string): string
  {
    "Error: Unsupported operation '" + operation + "'"
  }

  function FileNotFound(path: string): string
  {
    "Error: File not found at " + path
  }

  function NotAFile(path: string): string
  {
    "Error: " + path + " is not a file"
  }

  // ---------------------------------------------------------------------------
  // Reading
  // ---------------------------------------------------------------------------

  /** What `read_sync` returns: with a positive `max_lines` the first that
      many lines, terminators kept; otherwise the whole text. */
  function FirstLines(content: string, maxLines: int): string
  {
    if maxLines > 0 then Concat(Lines(content)[..Min(maxLines, |Lines(content)|)]) else content
  }

  /** The first lines are the start of the file: the whole file when the
      limit is off or reaches past the last line, and otherwise a text that
      ends with a line break, holding exactly `max_lines` lines. */
  lemma FirstLinesPrefix(content: string, maxLines: int)
    ensures var r := FirstLines(content, maxLines);
      && |r| <= |content| && r == content[..|r|]
      && (maxLines <= 0 || maxLines >= |Lines(content)| ==> r == content)
      && (0 < maxLines < |Lines(content)| ==> r != "" && r[|r| - 1] == '\n')
  {
    var ls := Lines(content);
    ConcatLines(content);
    if maxLines > 0 {
      var k := Min(maxLines, |ls|);
      var r := Concat(ls[..k]);
      assert r == FirstLines(content, maxLines);
      PrefixOfConcat(ls, k);
      if k == |ls| {
        assert ls[..k] == ls;
      } else {
        LineEndsWithBreak(content, k - 1);
        assert ls[..k][k - 1] == ls[k - 1];
        LastOfConcat(ls[..k]);
      }
    }
  }

  /** Every line but the last ends with a line break. */
  lemma LineEndsWithBreak(content: string, i: nat)
    requires i < |Lines(content)| - 1
    ensures Lines(content)[i] != "" && Lines(content)[i][|Lines(content)[i]| - 1] == '\n'
  {
    LinesShape(content, i);
  }

  /** Joining the first `k` pieces gives the start of the whole join. */
  lemma PrefixOfConcat(pieces: seq<string>, k: nat)
    requires k <= |pieces|
    ensures |Concat(pieces[..k])| <= |Concat(pieces)|
    ensures Concat(pieces[..k]) == Concat(pieces)[..|Concat(pieces[..k])|]
  {
    assert pieces == pieces[..k] + pieces[k..];
    ConcatAppend(pieces[..k], pieces[k..]);
  }

  /** The last character of a join is that of its last non-empty piece. */
  lemma {:induction false} LastOfConcat(pieces: seq<string>)
    requires pieces != [] && pieces[|pieces| - 1] != ""
    ensures Concat(pieces) != ""
    ensures Concat(pieces)[|Concat(pieces)| - 1] == pieces[|pieces| - 1][|pieces[|pieces| - 1]| - 1]
  {
    var init := pieces[..|pieces| - 1];
    assert pieces == init + [pieces[|pieces| - 1]];
    ConcatAppend(init, [pieces[|pieces| - 1]]);
    assert Concat([pieces[|pieces| - 1]]) == pieces[|pieces| - 1] + Concat([]);
  }

  /** `read_sync`: the lines are taken one at a time until `max_lines` of
      them are in. */
  method ReadSync(content: string, maxLines: int) returns (r: string)
    ensures r == FirstLines(content, maxLines)
  {
    if maxLines > 0 {
      var ls := Lines(content);
      var lines: seq<string> := [];
      var i := 0;
      while i < |ls|
        invariant 0 <= i <= |ls| && i <= maxLines
        invariant lines == ls[..i]
      {
        if i >= maxLines {
          break;
        }
        lines := lines + [ls[i]];
        i := i + 1;
      }
      assert i == Min(maxLines, |ls|);
      return Concat(lines);
    }
    return content;
  }

  function DirectoryNotFound(directory: string): string
  {
    "Error: Directory not found at " + directory
  }

  function NotADirectory(directory: string): string
  {
    "Error: " + directory + " is not a directory"
  }

  const FolderIcon: string := "\U{1F4C1} "
  const FileIcon: string := "\U{1F4C4} "

  /** One line of a listing: the path relative to the directory, marked as
      a folder (with a trailing `/`) or a file. */
  function ListingLine(store: Store, directory: string, path: string): (line: string)
    ensures var rel := Replace(path, directory + "/", "");
      line == (if path in store && store[path].Directory? then FolderIcon + rel + "/" else FileIcon + rel)
  {
    var rel := Replace(path, directory + "/", "");
    if path in store && store[path].Directory? then FolderIcon + rel + "/" else FileIcon + rel
  }

  /** `_list_files`, given glob's matches already sorted. */
  function ListFiles(store: Store, directory: string, pattern: string, sortedMatches: seq<string>): (r: string)
    ensures directory !in store ==> r == DirectoryNotFound(directory)
    ensures directory in store && store[directory].File? ==> r == NotADirectory(directory)
    ensures directory in store && store[directory].Directory? && sortedMatches == [] ==>
      r == "No files found matching " + directory + "/" + pattern
    ensures directory in store && store[directory].Directory? && sortedMatches != [] ==>
      r == Join(seq(|sortedMatches|, i requires 0 <= i < |sortedMatches| => ListingLine(store, directory, sortedMatches[i])), "\n")
  {
    if directory !in store then DirectoryNotFound(directory)
    else if store[directory].File? then NotADirectory(directory)
    else if sortedMatches == [] then "No files found matching " + directory + "/" + pattern
    else Join(seq(|sortedMatches|, i requires 0 <= i < |sortedMatches| => ListingLine(store, directory, sortedMatches[i])), "\n")
  }

  // ---------------------------------------------------------------------------
  // Writing and editing, as values
  // ---------------------------------------------------------------------------

  const ContentRequired: string := "Error: content parameter is required"
  const EditTextsRequired: string := "Error: both old_text and new_text parameters are required for edit operation"
  /** `str()` of the `IsADirectoryError` that `open(path, "w")` raises. */
  function IsADirectory(path: string): string
  {
    "[Errno 21] Is a directory: '" + path + "'"
  }

  /** What a call returns and what the disk is afterwards. */
  datatype Outcome = Outcome(message: string, store: Store)

  /** `_write_file`: the whole file is replaced and its length reported; a
      directory at the path cannot be opened for writing. */
  function WriteFile(store: Store, path: string, content: string): (o: Outcome)
    ensures path in store && store[path].Directory? ==>
      o == Outcome("Error writing to " + path + ": " + IsADirectory(path), store)
    ensures !(path in store && store[path].Directory?) ==>
      && o.store == store[path := File(content)]
      && o.message == "Successfully wrote " + IntToString(|content|) + " characters to " + path
  {
    if path in store && store[path].Directory? then
      Outcome("Error writing to " + path + ": " + IsADirectory(path), store)
    else
      Outcome("Successfully wrote " + IntToString(|content|) + " characters to " + path, store[path := File(content)])
  }

  function TextNotFound(path: string): string
  {
    "Error: The specified text was not found in " + path
  }

  /** `_edit_file`: a missing path, a directory, or a text that does not
      occur leaves the disk as it was; otherwise every non-overlapping
      occurrence is replaced, and the reply says how many there were when
      there was more than one. */
  function EditFile(store: Store, path: string, oldText: string, newText: string): (o: Outcome)
    requires oldText != ""
    ensures path !in store ==> o == Outcome(FileNotFound(path), store)
    ensures path in store && store[path].Directory? ==> o == Outcome(NotAFile(path), store)
    ensures path in store && store[path].File? ==>
      var content := store[path].content;
      && (!Contains(content, oldText) ==> o == Outcome(TextNotFound(path), store))
      && (Contains(content, oldText) ==>
            && o.store == store[path := File(Replace(content, oldText, newText))]
            && (Count(content, oldText) == 1 ==> o.message == "Successfully edited " + path)
            && (Count(content, oldText) > 1 ==>
                  o.message == "Warning: Found " + IntToString(Count(content, oldText)) + " occurrences. All were replaced in " + path))
  {
    if path !in store then Outcome(FileNotFound(path), store)
    else if store[path].Directory? then Outcome(NotAFile(path), store)
    else
      var content := store[path].content;
      CountPositiveIffContains(content, oldText);
      if !Contains(content, oldText) then Outcome(TextNotFound(path), store)
      else
        var count := Count(content, oldText);
        var newContent := Replace(content, oldText, newText);
        if count > 1 then
          Outcome("Warning: Found " + IntToString(count) + " occurrences. All were replaced in " + path,
                  store[path := File(newContent)])
        else
          Outcome("Successfully edited " + path, store[path := File(newContent)])
  }

  /** `FileWriteTool.execute`: an empty `content`, `old_text` or `new_text`
      is refused before the disk is touched, as is an unknown operation. */
  function WriteToolExecute(store: Store, operation: string, path: string, content: string,
                            oldText: string, newText: string): (o: Outcome)
    ensures operation != "write" && operation != "edit" ==> o == Outcome(UnsupportedOperation(operation), store)
    ensures operation == "write" && content == "" ==> o == Outcome(ContentRequired, store)
    ensures operation == "write" && content != "" ==> o == WriteFile(store, path, content)
    ensures operation == "edit" && (oldText == "" || newText == "") ==> o == Outcome(EditTextsRequired, store)
    ensures operation == "edit" && oldText != "" && newText != "" ==> o == EditFile(store, path, oldText, newText)
  {
    if operation == "write" then
      if content == "" then Outcome(ContentRequired, store) else WriteFile(store, path, content)
    else if operation == "edit" then
      if oldText == "" || newText == "" then Outcome(EditTextsRequired, store)
      else EditFile(store, path, oldText, newText)
    else Outcome(UnsupportedOperation(operation), store)
  }

  /** A write or an edit touches no path but its own. */
  lemma WriteToolFrame(store: Store, operation: string, path: string, content: string,
                       oldText: string, newText: string, other: string)
    requires other != path
    ensures var o := WriteToolExecute(store, operation, path, content, oldText, newText);
      && (other in o.store <==> other in store)
      && (other in store ==> o.store[other] == store[other])
  {
  }

  /** An edit that changes the file changes its length by the difference
      of the two texts for every occurrence. */
  lemma EditLength(store: Store, path: string, oldText: string, newText: string)
    requires oldText != "" && path in store && store[path].File? && Contains(store[path].content, oldText)
    ensures var o := EditFile(store, path, oldText, newText);
      var content := store[path].content;
      && path in o.store && o.store[path].File?
      && |o.store[path].content| == |content| + Count(content, oldText) * (|newText| - |oldText|)
  {
    ReplaceLength(store[path].content, oldText, newText);
  }

  /** Replacing a text by itself leaves the file as it was. */
  lemma {:induction false} ReplaceBySelf(s: string, t: string)
    requires t != ""
    ensures Replace(s, t, t) == s
    decreases |s|
  {
    if |s| >= |t| {
      if s[..|t|] == t {
        ReplaceBySelf(s[|t|..], t);
        assert s[..|t|] + s[|t|..] == s;
      } else {
        ReplaceBySelf(s[1..], t);
        assert [s[0]] + s[1..] == s;
      }
    }
  }

  // ---------------------------------------------------------------------------
  // The disk as a mutable object
  // ---------------------------------------------------------------------------

  class FileSystem {
    var store: Store

    constructor (store: Store)
      ensures this.store == store
    {
      this.store := store;
    }

    /** `_read_file`. */
    method ReadFile(path: string, maxLines: int) returns (r: string)
      ensures path !in store ==> r == FileNotFound(path)
      ensures path in store && store[path].Directory? ==> r == NotAFile(path)
      ensures path in store && store[path].File? ==> r == FirstLines(store[path].content, maxLines)
    {
      if path !in store {
        return FileNotFound(path);
      }
      if store[path].Directory? {
        return NotAFile(path);
      }
      r := ReadSync(store[path].content, maxLines);
    }

    /** `FileReadTool.execute`; it never changes the disk. */
    method ReadToolExecute(operation: string, path: string, maxLines: int, pattern: string,
                           sortedMatches: seq<string>) returns (r: string)
      ensures operation == "read" ==>
        (path !in store ==> r == FileNotFound(path))
        && (path in store && store[path].Directory? ==> r == NotAFile(path))
        && (path in store && store[path].File? ==> r == FirstLines(store[path].content, maxLines))
      ensures operation == "list" ==> r == ListFiles(store, path, pattern, sortedMatches)
      ensures operation != "read" && operation != "list" ==> r == UnsupportedOperation(operation)
    {
      if operation == "read" {
        r := ReadFile(path, maxLines);
      } else if operation == "list" {
        r := ListFiles(store, path, pattern, sortedMatches);
      } else {
        r := UnsupportedOperation(operation);
      }
    }

    /** `FileWriteTool.execute`. */
    method WriteToolExecuteOn(operation: string, path: string, content: string, oldText: string, newText: string)
        returns (r: string)
      modifies this
      ensures Outcome(r, store) == WriteToolExecute(old(store), operation, path, content, oldText, newText)
    {
      var o := WriteToolExecute(store, operation, path, content, oldText, newText);
      r := o.message;
      store := o.store;
    }
  }

  /** After a successful write, reading the file back whole gives exactly
      what was written. */
  lemma WriteThenRead(store: Store, path: string, content: string)
    requires content != "" && !(path in store && store[path].Directory?)
    ensures var o := WriteToolExecute(store, "write", path, content, "", "");
      path in o.store && o.store[path] == File(content) && FirstLines(o.store[path].content, 0) == content
  {
  }
}

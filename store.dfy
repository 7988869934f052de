/** The Store: it maps (collection, key) pairs to file paths, encodes and
    decodes items through its format, and turns the filesystem's failures
    into the store's own exceptions.

    Each operation is first given as a function from the store's
    configuration to a `Run`: the result the operation returns (or the
    exception it throws) and the filesystem calls it makes, in order. The
    methods of class `Store` perform those calls on a `FakeFilesystem` and
    are proved to do exactly what the functions say. */
module Suitcase {
  import opened Values
  import opened Exceptions
  import opened Formats
  import opened Filesystem

  /** The outcome of an operation and the filesystem calls it made. */
  datatype Run<T> = Run(result: Result<T>, calls: seq<Call>)

  /** A collection PHP treats as set: present and not "" or "0". */
  predicate CollectionSet(collection: Option<string>) {
    collection.Some? && !Falsy(collection.value)
  }

  /** `getFilePath`: `collection/key` followed by the format's extension,
      or CollectionException when no collection is set. */
  function FilePath(collection: Option<string>, format: Format, key: string): (r: Result<string>)
    ensures r.Err? <==> !CollectionSet(collection)
    ensures r.Err? ==> r.error == CollectionException("Collection not set.", "")
    ensures r.Ok? ==> r.value == collection.value + "/" + key + Extension(format)
  {
    if !CollectionSet(collection) then Err(CollectionException("Collection not set.", ""))
    else Ok(collection.value + "/" + key + Extension(format))
  }

  /** The directory `readAll` and `deleteAll` list: the collection as it is,
      an unset one reaching the filesystem as the empty name. */
  function ListingDir(collection: Option<string>): string {
    if collection.Some? then collection.value else ""
  }

  /** The protected `write`: a new file, FileExistsException and a false
      return both becoming SaveException. */
  function WriteRun(replies: Replies, path: string, data: string): Run<()> {
    var result := match replies.write(path, data)
      case Succeeded => Ok(())
      case Raised(m) => Err(SaveException("Unable to write data. File already exists.", m))
      case ReturnedFalse => Err(SaveException("Unable to write data.", replies.lastError))
      case Threw(e) => Err(Uncaught(e));
    Run(result, [WriteCall(path, data)])
  }

  /** The protected `update`: an existing file, FileNotFoundException and a
      false return both becoming SaveException. */
  function UpdateRun(replies: Replies, path: string, data: string): Run<()> {
    var result := match replies.update(path, data)
      case Succeeded => Ok(())
      case Raised(m) => Err(SaveException("Unable to update data. File not found.", m))
      case ReturnedFalse => Err(SaveException("Unable to update data.", replies.lastError))
      case Threw(e) => Err(Uncaught(e));
    Run(result, [UpdateCall(path, data)])
  }

  /** `save`: path, then encoding, then `has` to choose `update` or `write`. */
  function SaveRun(replies: Replies, fmt: Formatter, collection: Option<string>, key: string, data: PhpArray): Run<()> {
    match FilePath(collection, fmt.format, key)
    case Err(e) => Run(Err(e), [])
    case Ok(path) =>
      match Encode(fmt, data)
      case Err(e) => Run(Err(e), [])
      case Ok(encoded) =>
        match replies.has(path)
        case Escaped(e) => Run(Err(Uncaught(e)), [HasCall(path)])
        case Returned(present) =>
          var step := if present then UpdateRun(replies, path, encoded) else WriteRun(replies, path, encoded);
          Run(step.result, [HasCall(path)] + step.calls)
  }

  /** `read`: FileNotFoundException and false or empty contents become
      ReadException; other contents are decoded. */
  function ReadRun(replies: Replies, fmt: Formatter, collection: Option<string>, key: string): Run<PhpArray> {
    match FilePath(collection, fmt.format, key)
    case Err(e) => Run(Err(e), [])
    case Ok(path) =>
      var result := match replies.read(path)
        case NotFound(m) => Err(ReadException("Unable to read data. File not found.", m))
        case ReadFalse => Err(ReadException("Unable to read data.", ""))
        case ReadThrew(e) => Err(Uncaught(e))
        case Contents(text) => if Falsy(text) then Err(ReadException("Unable to read data.", "")) else Decode(fmt, text);
      Run(result, [ReadCall(path)])
  }

  /** The loop of `readAll` from `entries` on, `acc` holding what was read
      so far; the first failed read ends it. */
  function ReadEach(replies: Replies, fmt: Formatter, collection: Option<string>, entries: seq<Entry>, acc: PhpArray): Run<PhpArray>
    decreases |entries|
  {
    if entries == [] then Run(Ok(acc), [])
    else
      var one := ReadRun(replies, fmt, collection, entries[0].filename);
      match one.result
      case Err(e) => Run(Err(e), one.calls)
      case Ok(item) =>
        var rest := ReadEach(replies, fmt, collection, entries[1..], Put(acc, entries[0].filename, Arr(item)));
        Run(rest.result, one.calls + rest.calls)
  }

  /** `readAll`: list the collection, then read every entry by filename. */
  function ReadAllRun(replies: Replies, fmt: Formatter, collection: Option<string>): Run<PhpArray> {
    var dir := ListingDir(collection);
    match replies.listContents(dir)
    case Escaped(e) => Run(Err(Uncaught(e)), [ListContentsCall(dir)])
    case Returned(entries) =>
      var each := ReadEach(replies, fmt, collection, entries, []);
      Run(each.result, [ListContentsCall(dir)] + each.calls)
  }

  /** `delete`: FileNotFoundException and a false return become
      DeleteException. */
  function DeleteRun(replies: Replies, fmt: Formatter, collection: Option<string>, key: string): Run<()> {
    match FilePath(collection, fmt.format, key)
    case Err(e) => Run(Err(e), [])
    case Ok(path) =>
      var result := match replies.delete(path)
        case Succeeded => Ok(())
        case Raised(m) => Err(DeleteException("Unable to delete data. File not found.", m))
        case ReturnedFalse => Err(DeleteException("Unable to delete data.", ""))
        case Threw(e) => Err(Uncaught(e));
      Run(result, [DeleteCall(path)])
  }

  /** The loop of `deleteAll` from `entries` on; the first failure ends it. */
  function DeleteEach(replies: Replies, fmt: Formatter, collection: Option<string>, entries: seq<Entry>): Run<()>
    decreases |entries|
  {
    if entries == [] then Run(Ok(()), [])
    else
      var one := DeleteRun(replies, fmt, collection, entries[0].filename);
      match one.result
      case Err(e) => Run(Err(e), one.calls)
      case Ok(_) =>
        var rest := DeleteEach(replies, fmt, collection, entries[1..]);
        Run(rest.result, one.calls + rest.calls)
  }

  /** `deleteAll`: list the collection, then delete every entry by filename. */
  function DeleteAllRun(replies: Replies, fmt: Formatter, collection: Option<string>): Run<()> {
    var dir := ListingDir(collection);
    match replies.listContents(dir)
    case Escaped(e) => Run(Err(Uncaught(e)), [ListContentsCall(dir)])
    case Returned(entries) =>
      var each := DeleteEach(replies, fmt, collection, entries);
      Run(each.result, [ListContentsCall(dir)] + each.calls)
  }

  /** The message error_get_last() reports in `deleteCollection($c, false)`
      with an empty listing: no primitive failed, so the last error is PHP's
      own warning about reading the unassigned `$response` (PHP 8 wording). */
  const UndefinedResponseWarning: string := "Undefined variable $response"

  /** `deleteCollection`: with `empty` the directory is deleted outright;
      without it the listing is checked, and since the code then never
      assigns `$response`, even an empty listing ends in DeleteException. */
  function DeleteCollectionRun(replies: Replies, name: string, empty: bool): Run<()> {
    if empty then
      var result := match replies.deleteDir(name)
        case Escaped(e) => Err(Uncaught(e))
        case Returned(deleted) =>
          if deleted then Ok(()) else Err(DeleteException("Unable to delete collection.", replies.lastError));
      Run(result, [DeleteDirCall(name)])
    else
      var result := match replies.listContents(name)
        case Escaped(e) => Err(Uncaught(e))
        case Returned(files) =>
          if |files| > 0 then Err(CollectionNotEmptyException("Collection is not empty.", ""))
          else Err(DeleteException("Unable to delete collection.", UndefinedResponseWarning));
      Run(result, [ListContentsCall(name)])
  }

  /** A fluent result: the store itself on success. */
  function Chain(o: Result<()>, store: Store): (r: Result<Store>)
    ensures r.Ok? <==> o.Ok?
    ensures r.Ok? ==> r.value == store
    ensures r.Err? ==> r.error == o.error
  {
    match o
    case Ok(_) => Ok(store)
    case Err(e) => Err(e)
  }

  /** A hint for the `readAll` and `deleteAll` loops, which regroup the
      calls they log; it keeps those proofs cheap. */
  lemma AppendAssoc(a: seq<Call>, b: seq<Call>, c: seq<Call>)
    ensures (a + b) + c == a + (b + c)
  {
  }

  /** One step of the `readAll` loop, at position `i` of the listing. */
  lemma ReadEachUnfold(replies: Replies, fmt: Formatter, collection: Option<string>, entries: seq<Entry>, i: nat, acc: PhpArray)
    requires i < |entries|
    ensures var one := ReadRun(replies, fmt, collection, entries[i].filename);
      var here := ReadEach(replies, fmt, collection, entries[i..], acc);
      if one.result.Err? then here == Run(Err(one.result.error), one.calls)
      else
        var rest := ReadEach(replies, fmt, collection, entries[i + 1..], Put(acc, entries[i].filename, Arr(one.result.value)));
        here == Run(rest.result, one.calls + rest.calls)
  {
    assert entries[i..][0] == entries[i] && entries[i..][1..] == entries[i + 1..];
  }

  /** One step of the `deleteAll` loop, at position `i` of the listing. */
  lemma DeleteEachUnfold(replies: Replies, fmt: Formatter, collection: Option<string>, entries: seq<Entry>, i: nat)
    requires i < |entries|
    ensures var one := DeleteRun(replies, fmt, collection, entries[i].filename);
      var here := DeleteEach(replies, fmt, collection, entries[i..]);
      if one.result.Err? then here == Run(Err(one.result.error), one.calls)
      else
        var rest := DeleteEach(replies, fmt, collection, entries[i + 1..]);
        here == Run(rest.result, one.calls + rest.calls)
  {
    assert entries[i..][0] == entries[i] && entries[i..][1..] == entries[i + 1..];
  }

  class Store {
    const filesystem: FakeFilesystem
    const formatter: Formatter
    var collection: Option<string>

    /** Picks the format (JSON unless told otherwise); no collection is set. */
    constructor (filesystem: FakeFilesystem, serializer: Serializer, json: JsonFunctions, format: Format := Json)
      ensures this.filesystem == filesystem && formatter == Formatter(format, serializer, json)
      ensures collection == None
    {
      this.filesystem := filesystem;
      formatter := Formatter(format, serializer, json);
      collection := None;
    }

    /** The filesystem made exactly `calls`, with their effects. */
    twostate predicate Performed(calls: seq<Call>)
      reads filesystem
    {
      filesystem.log == old(filesystem.log) + calls &&
      filesystem.files == ApplyAll(filesystem.replies, old(filesystem.files), calls)
    }

    method SetCollection(name: string) returns (self: Store)
      modifies this
      ensures collection == Some(name) && self == this
    {
      collection := Some(name);
      self := this;
    }

    method DeleteCollection(name: string, empty: bool := true) returns (r: Result<Store>)
      modifies filesystem
      ensures var run := DeleteCollectionRun(filesystem.replies, name, empty);
        r == Chain(run.result, this) && Performed(run.calls)
    {
      if empty {
        var deleted := filesystem.DeleteDir(name);
        if deleted.Escaped? {
          return Err(Uncaught(deleted.exception));
        }
        if !deleted.value {
          return Err(DeleteException("Unable to delete collection.", filesystem.replies.lastError));
        }
      } else {
        var listing := filesystem.ListContents(name);
        if listing.Escaped? {
          return Err(Uncaught(listing.exception));
        }
        if |listing.value| > 0 {
          return Err(CollectionNotEmptyException("Collection is not empty.", ""));
        }
        return Err(DeleteException("Unable to delete collection.", UndefinedResponseWarning));
      }
      return Ok(this);
    }

    method Write(path: string, data: string) returns (r: Result<()>)
      modifies filesystem
      ensures var run := WriteRun(filesystem.replies, path, data);
        r == run.result && Performed(run.calls)
    {
      var reply := filesystem.Write(path, data);
      match reply
      case Raised(m) => r := Err(SaveException("Unable to write data. File already exists.", m));
      case ReturnedFalse => r := Err(SaveException("Unable to write data.", filesystem.replies.lastError));
      case Threw(e) => r := Err(Uncaught(e));
      case Succeeded => r := Ok(());
    }

    method Update(path: string, data: string) returns (r: Result<()>)
      modifies filesystem
      ensures var run := UpdateRun(filesystem.replies, path, data);
        r == run.result && Performed(run.calls)
    {
      var reply := filesystem.Update(path, data);
      match reply
      case Raised(m) => r := Err(SaveException("Unable to update data. File not found.", m));
      case ReturnedFalse => r := Err(SaveException("Unable to update data.", filesystem.replies.lastError));
      case Threw(e) => r := Err(Uncaught(e));
      case Succeeded => r := Ok(());
    }

    method Save(key: string, data: PhpArray) returns (r: Result<Store>)
      modifies filesystem
      ensures var run := SaveRun(filesystem.replies, formatter, collection, key, data);
        r == Chain(run.result, this) && Performed(run.calls)
    {
      var path := FilePath(collection, formatter.format, key);
      if path.Err? {
        return Err(path.error);
      }
      var encoded := Encode(formatter, data);
      if encoded.Err? {
        return Err(encoded.error);
      }
      var present := filesystem.Has(path.value);
      if present.Escaped? {
        return Err(Uncaught(present.exception));
      }
      var done;
      if present.value {
        done := Update(path.value, encoded.value);
      } else {
        done := Write(path.value, encoded.value);
      }
      r := Chain(done, this);
    }

    method Read(key: string) returns (r: Result<PhpArray>)
      modifies filesystem
      ensures var run := ReadRun(filesystem.replies, formatter, collection, key);
        r == run.result && Performed(run.calls)
    {
      var path := FilePath(collection, formatter.format, key);
      if path.Err? {
        return Err(path.error);
      }
      var reply := filesystem.Read(path.value);
      match reply
      case NotFound(m) => r := Err(ReadException("Unable to read data. File not found.", m));
      case ReadFalse => r := Err(ReadException("Unable to read data.", ""));
      case ReadThrew(e) => r := Err(Uncaught(e));
      case Contents(text) =>
        if Falsy(text) {
          r := Err(ReadException("Unable to read data.", ""));
        } else {
          r := Decode(formatter, text);
        }
    }

    method ReadAll() returns (r: Result<PhpArray>)
      modifies filesystem
      ensures var run := ReadAllRun(filesystem.replies, formatter, collection);
        r == run.result && Performed(run.calls)
    {
      ghost var replies := filesystem.replies;
      var dir := ListingDir(collection);
      var listing := filesystem.ListContents(dir);
      if listing.Escaped? {
        return Err(Uncaught(listing.exception));
      }
      var entries := listing.value;
      ghost var total := ReadEach(replies, formatter, collection, entries, []);
      ghost var done := [ListContentsCall(dir)];
      var data: PhpArray := [];
      ghost var rest := total;
      var i := 0;
      while i < |entries|
        invariant 0 <= i <= |entries|
        invariant rest == ReadEach(replies, formatter, collection, entries[i..], data)
        invariant rest.result == total.result && done + rest.calls == [ListContentsCall(dir)] + total.calls
        invariant filesystem.log == old(filesystem.log) + done
        invariant filesystem.files == ApplyAll(replies, old(filesystem.files), done)
      {
        ghost var one := ReadRun(replies, formatter, collection, entries[i].filename);
        ReadEachUnfold(replies, formatter, collection, entries, i, data);
        var item := Read(entries[i].filename);
        ApplyAllConcat(replies, old(filesystem.files), done, one.calls);
        AppendAssoc(old(filesystem.log), done, one.calls);
        if item.Err? {
          done := done + one.calls;
          return Err(item.error);
        }
        data := Put(data, entries[i].filename, Arr(item.value));
        AppendAssoc(done, one.calls, ReadEach(replies, formatter, collection, entries[i + 1..], data).calls);
        done := done + one.calls;
        rest := ReadEach(replies, formatter, collection, entries[i + 1..], data);
        i := i + 1;
      }
      assert entries[i..] == [];
      assert done == [ListContentsCall(dir)] + total.calls;
      r := Ok(data);
    }

    method Delete(key: string) returns (r: Result<Store>)
      modifies filesystem
      ensures var run := DeleteRun(filesystem.replies, formatter, collection, key);
        r == Chain(run.result, this) && Performed(run.calls)
    {
      var path := FilePath(collection, formatter.format, key);
      if path.Err? {
        return Err(path.error);
      }
      var reply := filesystem.Delete(path.value);
      match reply
      case Raised(m) => r := Err(DeleteException("Unable to delete data. File not found.", m));
      case ReturnedFalse => r := Err(DeleteException("Unable to delete data.", ""));
      case Threw(e) => r := Err(Uncaught(e));
      case Succeeded => r := Ok(this);
    }

    method DeleteAll() returns (r: Result<Store>)
      modifies filesystem
      ensures var run := DeleteAllRun(filesystem.replies, formatter, collection);
        r == Chain(run.result, this) && Performed(run.calls)
    {
      ghost var replies := filesystem.replies;
      var dir := ListingDir(collection);
      var listing := filesystem.ListContents(dir);
      if listing.Escaped? {
        return Err(Uncaught(listing.exception));
      }
      var entries := listing.value;
      ghost var total := DeleteEach(replies, formatter, collection, entries);
      ghost var done := [ListContentsCall(dir)];
      var i := 0;
      while i < |entries|
        invariant 0 <= i <= |entries|
        invariant DeleteEach(replies, formatter, collection, entries[i..]).result == total.result
        invariant done + DeleteEach(replies, formatter, collection, entries[i..]).calls == [ListContentsCall(dir)] + total.calls
        invariant filesystem.log == old(filesystem.log) + done
        invariant filesystem.files == ApplyAll(replies, old(filesystem.files), done)
      {
        ghost var one := DeleteRun(replies, formatter, collection, entries[i].filename);
        DeleteEachUnfold(replies, formatter, collection, entries, i);
        var deleted := Delete(entries[i].filename);
        ApplyAllConcat(replies, old(filesystem.files), done, one.calls);
        AppendAssoc(old(filesystem.log), done, one.calls);
        if deleted.Err? {
          done := done + one.calls;
          return Err(deleted.error);
        }
        AppendAssoc(done, one.calls, DeleteEach(replies, formatter, collection, entries[i + 1..]).calls);
        done := done + one.calls;
        i := i + 1;
      }
      assert entries[i..] == [];
      assert done == [ListContentsCall(dir)] + total.calls;
      r := Ok(this);
    }
  }
}

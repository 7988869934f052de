/** What the store's operations promise, stated over the `Run` functions
    that the methods of `Suitcase.Store` are proved to follow. */
module StoreProperties {
  import opened Values
  import opened Exceptions
  import opened Formats
  import opened Filesystem
  import opened Suitcase

  // ---------------------------------------------------------------------
  // Paths

  /** Within one collection and format, distinct keys have distinct files. */
  lemma FilePathInjective(c: Option<string>, f: Format, k1: string, k2: string)
    requires CollectionSet(c)
    requires FilePath(c, f, k1) == FilePath(c, f, k2)
    ensures k1 == k2
  {
    var pre := c.value + "/";
    var p1, p2 := pre + k1 + Extension(f), pre + k2 + Extension(f);
    assert |k1| == |k2|;
    assert p1[|pre|..|pre| + |k1|] == k1;
    assert p2[|pre|..|pre| + |k2|] == k2;
  }

  /** The same key in the same collection under two formats names two
      files: the path determines the format. */
  lemma FilePathDeterminesFormat(c: Option<string>, f: Format, g: Format, k: string)
    requires CollectionSet(c)
    requires FilePath(c, f, k) == FilePath(c, g, k)
    ensures f == g
  {
    var pre := c.value + "/" + k;
    var p := FilePath(c, f, k).value;
    assert p[|pre|..] == Extension(f);
    assert FilePath(c, g, k).value[|pre|..] == Extension(g);
    ExtensionInjective(f, g);
  }

  // ---------------------------------------------------------------------
  // The collection guard

  /** Without a usable collection, save, read and delete throw
      CollectionException and make no filesystem call (and save encodes
      nothing: an unencodable item fails the same way). */
  lemma ItemOperationsNeedCollection(replies: Replies, fmt: Formatter, c: Option<string>, key: string, data: PhpArray)
    requires !CollectionSet(c)
    ensures SaveRun(replies, fmt, c, key, data) == Run(Err(CollectionException("Collection not set.", "")), [])
    ensures ReadRun(replies, fmt, c, key) == Run(Err(CollectionException("Collection not set.", "")), [])
    ensures DeleteRun(replies, fmt, c, key) == Run(Err(CollectionException("Collection not set.", "")), [])
  {
  }

  // ---------------------------------------------------------------------
  // save

  /** `save` asks `has`, then calls `update` exactly when the file exists
      and `write` exactly when it does not, never both, passing the
      encoded item; an exception from `has` ends it there. */
  lemma SaveDispatch(replies: Replies, fmt: Formatter, c: Option<string>, key: string, data: PhpArray)
    requires CollectionSet(c) && Encode(fmt, data).Ok?
    ensures var path, encoded := FilePath(c, fmt.format, key).value, Encode(fmt, data).value;
      var run := SaveRun(replies, fmt, c, key, data);
      var calls := run.calls;
      |calls| >= 1 && calls[0] == HasCall(path) &&
      (replies.has(path).Escaped? ==> run == Run(Err(Uncaught(replies.has(path).exception)), [HasCall(path)])) &&
      (replies.has(path).Returned? ==>
         |calls| == 2 &&
         (WriteCall(path, encoded) in calls <==> replies.has(path) == Returned(false)) &&
         (UpdateCall(path, encoded) in calls <==> replies.has(path) == Returned(true)) &&
         (forall i :: 0 <= i < |calls| ==> calls[i].WriteCall? || calls[i].UpdateCall? ==> calls[i].data == encoded))
  {
  }

  /** A failed encoding propagates unchanged, before `has` is asked. */
  lemma SaveEncodingFails(replies: Replies, fmt: Formatter, c: Option<string>, key: string, data: PhpArray)
    requires CollectionSet(c) && Encode(fmt, data).Err?
    ensures SaveRun(replies, fmt, c, key, data) == Run(Err(Encode(fmt, data).error), [])
  {
  }

  /** Every failure of `write` or `update` becomes a SaveException, with the
      message that names the branch and the cause the filesystem gave; an
      exception the store does not catch passes through. */
  lemma SaveErrorTranslation(replies: Replies, fmt: Formatter, c: Option<string>, key: string, data: PhpArray)
    requires CollectionSet(c) && Encode(fmt, data).Ok?
    ensures var path, encoded := FilePath(c, fmt.format, key).value, Encode(fmt, data).value;
      var result := SaveRun(replies, fmt, c, key, data).result;
      match replies.has(path)
      case Escaped(f) => result == Err(Uncaught(f))
      case Returned(present) =>
        if present then
          match replies.update(path, encoded)
          case Succeeded => result == Ok(())
          case Raised(m) => result == Err(SaveException("Unable to update data. File not found.", m))
          case ReturnedFalse => result == Err(SaveException("Unable to update data.", replies.lastError))
          case Threw(f) => result == Err(Uncaught(f))
        else
          match replies.write(path, encoded)
          case Succeeded => result == Ok(())
          case Raised(m) => result == Err(SaveException("Unable to write data. File already exists.", m))
          case ReturnedFalse => result == Err(SaveException("Unable to write data.", replies.lastError))
          case Threw(f) => result == Err(Uncaught(f))
  {
  }

  /** The only exceptions `save` throws: before any call,
      CollectionException or the format's own; once the filesystem has been
      asked, SaveException or an exception that `has`, `write` or `update`
      threw and the store does not catch. */
  lemma SaveErrorKinds(replies: Replies, fmt: Formatter, c: Option<string>, key: string, data: PhpArray)
    requires SaveRun(replies, fmt, c, key, data).result.Err?
    ensures var run := SaveRun(replies, fmt, c, key, data);
      var e := run.result.error;
      if run.calls == [] then
        (!CollectionSet(c) && e == CollectionException("Collection not set.", "")) ||
        (CollectionSet(c) && Encode(fmt, data).Err? && e == Encode(fmt, data).error &&
         (e.FormatException? || e.PlainException? || e.Uncaught?))
      else
        CollectionSet(c) && Encode(fmt, data).Ok? &&
        (var path, encoded := FilePath(c, fmt.format, key).value, Encode(fmt, data).value;
         e.SaveException? ||
         (e.Uncaught? &&
          (replies.has(path) == Escaped(e.thrown) ||
           replies.write(path, encoded) == Threw(e.thrown) ||
           replies.update(path, encoded) == Threw(e.thrown))))
  {
  }

  /** A successful save leaves the encoded item at the item's path and
      every other file as it was. */
  lemma SaveStoresEncoding(replies: Replies, fmt: Formatter, c: Option<string>, key: string, data: PhpArray, files: map<string, string>)
    requires SaveRun(replies, fmt, c, key, data).result.Ok?
    ensures CollectionSet(c) && Encode(fmt, data).Ok?
    ensures ApplyAll(replies, files, SaveRun(replies, fmt, c, key, data).calls)
         == files[FilePath(c, fmt.format, key).value := Encode(fmt, data).value]
  {
    var path, encoded := FilePath(c, fmt.format, key).value, Encode(fmt, data).value;
    var call := if replies.has(path) == Returned(true) then UpdateCall(path, encoded) else WriteCall(path, encoded);
    assert SaveRun(replies, fmt, c, key, data).calls == [HasCall(path), call];
    assert [HasCall(path), call][1..] == [call] && [call][1..] == [];
    if replies.has(path) == Returned(true) {
      assert replies.update(path, encoded) == Succeeded;
    } else {
      assert replies.write(path, encoded) == Succeeded;
    }
    calc {
      ApplyAll(replies, files, [HasCall(path), call]);
      ApplyAll(replies, files, [call]);
      ApplyAll(replies, files[path := encoded], []);
    }
  }

  /** Saving then reading round-trips: when the filesystem serves back what
      it stores, the codec round-trips and the encoding is not one PHP
      deems false, `read` returns the saved item. */
  lemma SaveThenRead(replies: Replies, fmt: Formatter, c: Option<string>, key: string, data: PhpArray, files: map<string, string>)
    requires SaveRun(replies, fmt, c, key, data).result.Ok?
    requires BackendRoundTrips(fmt)
    requires CollectionSet(c) && Encode(fmt, data).Ok? && !Falsy(Encode(fmt, data).value)
    requires var stored := ApplyAll(replies, files, SaveRun(replies, fmt, c, key, data).calls);
      var path := FilePath(c, fmt.format, key).value;
      path in stored && replies.read(path) == Contents(stored[path])
    ensures ReadRun(replies, fmt, c, key).result == Ok(data)
  {
    SaveStoresEncoding(replies, fmt, c, key, data, files);
    RoundTrip(fmt, data);
  }

  /** An item whose encoding is "" or "0" can be saved but not read back:
      `read` takes such contents for a failed read. */
  lemma FalsyEncodingIsUnreadable(replies: Replies, fmt: Formatter, c: Option<string>, key: string, data: PhpArray)
    requires CollectionSet(c) && Encode(fmt, data).Ok? && Falsy(Encode(fmt, data).value)
    requires replies.read(FilePath(c, fmt.format, key).value) == Contents(Encode(fmt, data).value)
    ensures ReadRun(replies, fmt, c, key).result == Err(ReadException("Unable to read data.", ""))
  {
  }

  // ---------------------------------------------------------------------
  // read and delete

  /** `read` makes one call, at the item's path; a missing file, false, ""
      and "0" are ReadExceptions, any other contents are decoded unchanged,
      and an exception the store does not catch passes through. */
  lemma ReadOutcomes(replies: Replies, fmt: Formatter, c: Option<string>, key: string)
    requires CollectionSet(c)
    ensures var path := FilePath(c, fmt.format, key).value;
      var run := ReadRun(replies, fmt, c, key);
      run.calls == [ReadCall(path)] &&
      match replies.read(path)
      case NotFound(m) => run.result == Err(ReadException("Unable to read data. File not found.", m))
      case ReadFalse => run.result == Err(ReadException("Unable to read data.", ""))
      case ReadThrew(f) => run.result == Err(Uncaught(f))
      case Contents(text) =>
        run.result == if Falsy(text) then Err(ReadException("Unable to read data.", "")) else Decode(fmt, text)
  {
  }

  /** `read` throws ReadException exactly when the file is missing or its
      contents are false, "" or "0". */
  lemma ReadFailsIff(replies: Replies, fmt: Formatter, c: Option<string>, key: string)
    requires CollectionSet(c)
    ensures var reply := replies.read(FilePath(c, fmt.format, key).value);
      var result := ReadRun(replies, fmt, c, key).result;
      (result.Err? && result.error.ReadException?) <==>
        reply.NotFound? || reply.ReadFalse? || (reply.Contents? && Falsy(reply.data))
  {
  }

  /** `delete` makes one call, at the item's path; it succeeds exactly when
      the filesystem does, only then removes that one file, and maps a
      missing file and false to DeleteException, passing any other
      exception through. */
  lemma DeleteTouchesOnlyTarget(replies: Replies, fmt: Formatter, c: Option<string>, key: string, files: map<string, string>)
    requires CollectionSet(c)
    ensures var path := FilePath(c, fmt.format, key).value;
      var run := DeleteRun(replies, fmt, c, key);
      run.calls == [DeleteCall(path)] &&
      (run.result.Ok? <==> replies.delete(path) == Succeeded) &&
      ApplyAll(replies, files, run.calls) == (if run.result.Ok? then files - {path} else files) &&
      (replies.delete(path).Raised? ==>
         run.result == Err(DeleteException("Unable to delete data. File not found.", replies.delete(path).message))) &&
      (replies.delete(path) == ReturnedFalse ==> run.result == Err(DeleteException("Unable to delete data.", ""))) &&
      (replies.delete(path).Threw? ==> run.result == Err(Uncaught(replies.delete(path).exception)))
  {
  }

  // ---------------------------------------------------------------------
  // readAll

  /** The filenames of a listing, in order. */
  function Filenames(entries: seq<Entry>): (names: seq<string>)
    ensures |names| == |entries|
    ensures forall j :: 0 <= j < |entries| ==> names[j] == entries[j].filename
  {
    if entries == [] then [] else [entries[0].filename] + Filenames(entries[1..])
  }

  /** The calls of reading every entry, in order. */
  function ReadCalls(replies: Replies, fmt: Formatter, c: Option<string>, entries: seq<Entry>): seq<Call> {
    if entries == [] then [] else ReadRun(replies, fmt, c, entries[0].filename).calls + ReadCalls(replies, fmt, c, entries[1..])
  }

  /** The loop succeeds exactly when every entry can be read. */
  lemma {:induction false} ReadEachOkIff(replies: Replies, fmt: Formatter, c: Option<string>, entries: seq<Entry>, acc: PhpArray)
    ensures ReadEach(replies, fmt, c, entries, acc).result.Ok? <==>
      forall j :: 0 <= j < |entries| ==> ReadRun(replies, fmt, c, entries[j].filename).result.Ok?
    decreases |entries|
  {
    if entries != [] {
      var one := ReadRun(replies, fmt, c, entries[0].filename);
      if one.result.Ok? {
        ReadEachOkIff(replies, fmt, c, entries[1..], Put(acc, entries[0].filename, Arr(one.result.value)));
        assert forall j :: 0 < j < |entries| ==> entries[1..][j - 1] == entries[j];
      }
    }
  }

  /** The first entry that cannot be read ends the loop: its exception is
      the result and no entry after it is read. */
  lemma {:induction false} ReadEachFailFast(replies: Replies, fmt: Formatter, c: Option<string>, entries: seq<Entry>, acc: PhpArray, i: nat)
    requires i < |entries|
    requires forall j :: 0 <= j < i ==> ReadRun(replies, fmt, c, entries[j].filename).result.Ok?
    requires ReadRun(replies, fmt, c, entries[i].filename).result.Err?
    ensures ReadEach(replies, fmt, c, entries, acc).result == ReadRun(replies, fmt, c, entries[i].filename).result
    ensures ReadEach(replies, fmt, c, entries, acc).calls == ReadCalls(replies, fmt, c, entries[..i + 1])
    decreases i
  {
    var one := ReadRun(replies, fmt, c, entries[0].filename);
    assert entries[..i + 1][0] == entries[0];
    if i == 0 {
      assert entries[..1][1..] == [];
    } else {
      assert entries[..i + 1][1..] == entries[1..][..i];
      ReadEachFailFast(replies, fmt, c, entries[1..], Put(acc, entries[0].filename, Arr(one.result.value)), i - 1);
    }
  }

  /** When every entry can be read, the loop reads them all in order; the
      keys are the filenames in order of first appearance, each mapped to
      what reading it returns, and other keys keep their values. */
  lemma {:induction false} ReadEachContents(replies: Replies, fmt: Formatter, c: Option<string>, entries: seq<Entry>, acc: PhpArray)
    requires forall j :: 0 <= j < |entries| ==> ReadRun(replies, fmt, c, entries[j].filename).result.Ok?
    ensures var run := ReadEach(replies, fmt, c, entries, acc);
      run.result.Ok? && run.calls == ReadCalls(replies, fmt, c, entries) &&
      Keys(run.result.value) == AppendNew(Keys(acc), Filenames(entries)) &&
      (forall k :: k in Filenames(entries) ==>
         ReadRun(replies, fmt, c, k).result.Ok? &&
         Get(run.result.value, k) == Some(Arr(ReadRun(replies, fmt, c, k).result.value))) &&
      (forall k :: k !in Filenames(entries) ==> Get(run.result.value, k) == Get(acc, k))
    decreases |entries|
  {
    if entries != [] {
      var name := entries[0].filename;
      var one := ReadRun(replies, fmt, c, name);
      var acc' := Put(acc, name, Arr(one.result.value));
      assert forall j :: 0 <= j < |entries[1..]| ==> entries[1..][j] == entries[j + 1];
      ReadEachContents(replies, fmt, c, entries[1..], acc');
      PutKeys(acc, name, Arr(one.result.value));
      forall k {
        PutGet(acc, name, Arr(one.result.value), k);
      }
      assert Filenames(entries) == [name] + Filenames(entries[1..]);
    }
  }

  /** `readAll` over a listing whose every entry can be read: one listing
      call, then one read per entry in order; the result has each listed
      filename once, in order of first appearance, mapped to what reading
      it returns. */
  lemma ReadAllReadsEveryEntry(replies: Replies, fmt: Formatter, c: Option<string>)
    requires replies.listContents(ListingDir(c)).Returned?
    requires var listing := replies.listContents(ListingDir(c)).value;
      forall j :: 0 <= j < |listing| ==> ReadRun(replies, fmt, c, listing[j].filename).result.Ok?
    ensures var listing := replies.listContents(ListingDir(c)).value;
      var run := ReadAllRun(replies, fmt, c);
      run.result.Ok? &&
      run.calls == [ListContentsCall(ListingDir(c))] + ReadCalls(replies, fmt, c, listing) &&
      Keys(run.result.value) == AppendNew([], Filenames(listing)) &&
      NoDuplicates(Keys(run.result.value)) &&
      (forall k :: k in Keys(run.result.value) <==> k in Filenames(listing)) &&
      (forall k :: k in Filenames(listing) ==>
         ReadRun(replies, fmt, c, k).result.Ok? &&
         Get(run.result.value, k) == Some(Arr(ReadRun(replies, fmt, c, k).result.value)))
  {
    var listing := replies.listContents(ListingDir(c)).value;
    ReadEachContents(replies, fmt, c, listing, []);
    AppendNewDistinct([], Filenames(listing));
  }

  /** `readAll` succeeds exactly when every listed entry can be read; the
      first that cannot ends it with that entry's exception, and nothing
      after it is read. */
  lemma ReadAllFailFast(replies: Replies, fmt: Formatter, c: Option<string>, i: nat)
    requires replies.listContents(ListingDir(c)).Returned?
    requires var listing := replies.listContents(ListingDir(c)).value;
      i < |listing| &&
      (forall j :: 0 <= j < i ==> ReadRun(replies, fmt, c, listing[j].filename).result.Ok?) &&
      ReadRun(replies, fmt, c, listing[i].filename).result.Err?
    ensures var listing := replies.listContents(ListingDir(c)).value;
      var run := ReadAllRun(replies, fmt, c);
      run.result == ReadRun(replies, fmt, c, listing[i].filename).result &&
      run.calls == [ListContentsCall(ListingDir(c))] + ReadCalls(replies, fmt, c, listing[..i + 1])
  {
    ReadEachFailFast(replies, fmt, c, replies.listContents(ListingDir(c)).value, [], i);
  }

  /** `readAll` succeeds exactly when the listing succeeds and every listed
      entry can be read. */
  lemma ReadAllOkIff(replies: Replies, fmt: Formatter, c: Option<string>)
    ensures var answer := replies.listContents(ListingDir(c));
      ReadAllRun(replies, fmt, c).result.Ok? <==>
      answer.Returned? &&
      forall j :: 0 <= j < |answer.value| ==> ReadRun(replies, fmt, c, answer.value[j].filename).result.Ok?
  {
    if replies.listContents(ListingDir(c)).Returned? {
      ReadEachOkIff(replies, fmt, c, replies.listContents(ListingDir(c)).value, []);
    }
  }

  /** When listing the collection throws, `readAll` and `deleteAll` pass the
      exception on before reading or deleting anything. */
  lemma ListingFailurePropagates(replies: Replies, fmt: Formatter, c: Option<string>)
    requires replies.listContents(ListingDir(c)).Escaped?
    ensures var e, calls := Uncaught(replies.listContents(ListingDir(c)).exception), [ListContentsCall(ListingDir(c))];
      ReadAllRun(replies, fmt, c) == Run(Err(e), calls) && DeleteAllRun(replies, fmt, c) == Run(Err(e), calls)
  {
  }

  /** The calls of reading entries only query the filesystem. */
  lemma {:induction false} ReadCallsQueryOnly(replies: Replies, fmt: Formatter, c: Option<string>, entries: seq<Entry>)
    ensures forall i :: 0 <= i < |ReadCalls(replies, fmt, c, entries)| ==> ReadCalls(replies, fmt, c, entries)[i].ReadCall?
    decreases |entries|
  {
    if entries != [] {
      ReadCallsQueryOnly(replies, fmt, c, entries[1..]);
    }
  }

  /** The calls of the loop, whether it completes or fails, are those of
      reading some prefix of the listing. */
  lemma {:induction false} ReadEachCallsArePrefix(replies: Replies, fmt: Formatter, c: Option<string>, entries: seq<Entry>, acc: PhpArray)
    ensures exists n :: 0 <= n <= |entries| && ReadEach(replies, fmt, c, entries, acc).calls == ReadCalls(replies, fmt, c, entries[..n])
    decreases |entries|
  {
    if entries == [] {
      assert entries[..0] == [];
    } else {
      var one := ReadRun(replies, fmt, c, entries[0].filename);
      assert entries[..1][0] == entries[0] && entries[..1][1..] == [];
      if one.result.Ok? {
        var acc' := Put(acc, entries[0].filename, Arr(one.result.value));
        ReadEachCallsArePrefix(replies, fmt, c, entries[1..], acc');
        var n :| 0 <= n <= |entries[1..]| && ReadEach(replies, fmt, c, entries[1..], acc').calls == ReadCalls(replies, fmt, c, entries[1..][..n]);
        assert entries[..n + 1][0] == entries[0] && entries[..n + 1][1..] == entries[1..][..n];
        assert ReadEach(replies, fmt, c, entries, acc).calls == ReadCalls(replies, fmt, c, entries[..n + 1]);
      } else {
        assert ReadEach(replies, fmt, c, entries, acc).calls == ReadCalls(replies, fmt, c, entries[..1]);
      }
    }
  }

  /** `readAll` changes no file. */
  lemma ReadAllChangesNothing(replies: Replies, fmt: Formatter, c: Option<string>, files: map<string, string>)
    ensures ApplyAll(replies, files, ReadAllRun(replies, fmt, c).calls) == files
  {
    if replies.listContents(ListingDir(c)).Returned? {
      var listing := replies.listContents(ListingDir(c)).value;
      ReadEachCallsArePrefix(replies, fmt, c, listing, []);
      var n :| 0 <= n <= |listing| && ReadEach(replies, fmt, c, listing, []).calls == ReadCalls(replies, fmt, c, listing[..n]);
      ReadCallsQueryOnly(replies, fmt, c, listing[..n]);
    }
    QueriesChangeNothing(replies, files, ReadAllRun(replies, fmt, c).calls);
  }

  /** `readAll` does not check the collection itself: without one it lists
      the empty name, returns an empty array for an empty listing and
      otherwise fails on the first entry with CollectionException. */
  lemma ReadAllWithoutCollection(replies: Replies, fmt: Formatter, c: Option<string>)
    requires !CollectionSet(c)
    requires replies.listContents(ListingDir(c)).Returned?
    ensures var listing := replies.listContents(ListingDir(c)).value;
      ReadAllRun(replies, fmt, c) ==
      Run(if listing == [] then Ok([]) else Err(CollectionException("Collection not set.", "")),
          [ListContentsCall(ListingDir(c))])
  {
  }

  // ---------------------------------------------------------------------
  // deleteAll

  /** The calls of deleting every entry, in order. */
  function DeleteCalls(replies: Replies, fmt: Formatter, c: Option<string>, entries: seq<Entry>): seq<Call> {
    if entries == [] then [] else DeleteRun(replies, fmt, c, entries[0].filename).calls + DeleteCalls(replies, fmt, c, entries[1..])
  }

  /** The paths of the listed entries' items. */
  ghost function Paths(c: Option<string>, f: Format, entries: seq<Entry>): set<string>
    requires CollectionSet(c)
  {
    set j | 0 <= j < |entries| :: FilePath(c, f, entries[j].filename).value
  }

  /** The loop succeeds exactly when every entry can be deleted. */
  lemma {:induction false} DeleteEachOkIff(replies: Replies, fmt: Formatter, c: Option<string>, entries: seq<Entry>)
    ensures DeleteEach(replies, fmt, c, entries).result.Ok? <==>
      forall j :: 0 <= j < |entries| ==> DeleteRun(replies, fmt, c, entries[j].filename).result.Ok?
    decreases |entries|
  {
    if entries != [] {
      DeleteEachOkIff(replies, fmt, c, entries[1..]);
      assert forall j :: 0 < j < |entries| ==> entries[1..][j - 1] == entries[j];
    }
  }

  /** The first entry that cannot be deleted ends the loop: its exception is
      the result and no entry after it is deleted. */
  lemma {:induction false} DeleteEachFailFast(replies: Replies, fmt: Formatter, c: Option<string>, entries: seq<Entry>, i: nat)
    requires i < |entries|
    requires forall j :: 0 <= j < i ==> DeleteRun(replies, fmt, c, entries[j].filename).result.Ok?
    requires DeleteRun(replies, fmt, c, entries[i].filename).result.Err?
    ensures DeleteEach(replies, fmt, c, entries).result == DeleteRun(replies, fmt, c, entries[i].filename).result
    ensures DeleteEach(replies, fmt, c, entries).calls == DeleteCalls(replies, fmt, c, entries[..i + 1])
    decreases i
  {
    assert entries[..i + 1][0] == entries[0];
    if i == 0 {
      assert entries[..1][1..] == [];
    } else {
      assert entries[..i + 1][1..] == entries[1..][..i];
      DeleteEachFailFast(replies, fmt, c, entries[1..], i - 1);
    }
  }

  /** When every entry can be deleted, the loop deletes them all in order. */
  lemma {:induction false} DeleteEachAll(replies: Replies, fmt: Formatter, c: Option<string>, entries: seq<Entry>)
    requires forall j :: 0 <= j < |entries| ==> DeleteRun(replies, fmt, c, entries[j].filename).result.Ok?
    ensures DeleteEach(replies, fmt, c, entries) == Run(Ok(()), DeleteCalls(replies, fmt, c, entries))
    decreases |entries|
  {
    if entries != [] {
      assert forall j :: 0 <= j < |entries[1..]| ==> entries[1..][j] == entries[j + 1];
      DeleteEachAll(replies, fmt, c, entries[1..]);
    }
  }

  /** Successful deletions, one per entry, remove exactly the entries'
      files. */
  lemma {:induction false} DeletionsRemovePaths(replies: Replies, fmt: Formatter, c: Option<string>, entries: seq<Entry>, files: map<string, string>)
    requires CollectionSet(c)
    requires forall j :: 0 <= j < |entries| ==> DeleteRun(replies, fmt, c, entries[j].filename).result.Ok?
    ensures ApplyAll(replies, files, DeleteCalls(replies, fmt, c, entries)) == files - Paths(c, fmt.format, entries)
    decreases |entries|
  {
    if entries == [] {
      assert Paths(c, fmt.format, entries) == {};
      assert files - {} == files;
    } else {
      var path := FilePath(c, fmt.format, entries[0].filename).value;
      assert DeleteRun(replies, fmt, c, entries[0].filename).calls == [DeleteCall(path)];
      assert [DeleteCall(path)][1..] == [];
      ApplyAllConcat(replies, files, [DeleteCall(path)], DeleteCalls(replies, fmt, c, entries[1..]));
      assert forall j :: 0 <= j < |entries[1..]| ==> entries[1..][j] == entries[j + 1];
      DeletionsRemovePaths(replies, fmt, c, entries[1..], files - {path});
      PathsCons(c, fmt.format, entries);
      RemoveInTurn(files, path, Paths(c, fmt.format, entries[1..]));
    }
  }

  /** Removing one key and then a set of keys removes their union. */
  lemma RemoveInTurn(files: map<string, string>, path: string, rest: set<string>)
    ensures (files - {path}) - rest == files - ({path} + rest)
  {
  }

  /** The paths of a listing: its first entry's, then the rest's. */
  lemma PathsCons(c: Option<string>, f: Format, entries: seq<Entry>)
    requires CollectionSet(c) && entries != []
    ensures Paths(c, f, entries) == {FilePath(c, f, entries[0].filename).value} + Paths(c, f, entries[1..])
  {
    forall p | p in Paths(c, f, entries) ensures p in {FilePath(c, f, entries[0].filename).value} + Paths(c, f, entries[1..]) {
      var j :| 0 <= j < |entries| && p == FilePath(c, f, entries[j].filename).value;
      if j > 0 {
        assert entries[1..][j - 1] == entries[j];
      }
    }
  }

  /** Deleting the entries of `a + b` deletes those of `a`, then those of `b`. */
  lemma {:induction false} DeleteCallsConcat(replies: Replies, fmt: Formatter, c: Option<string>, a: seq<Entry>, b: seq<Entry>)
    ensures DeleteCalls(replies, fmt, c, a + b) == DeleteCalls(replies, fmt, c, a) + DeleteCalls(replies, fmt, c, b)
    decreases |a|
  {
    if a == [] {
      assert a + b == b;
    } else {
      assert (a + b)[0] == a[0] && (a + b)[1..] == a[1..] + b;
      DeleteCallsConcat(replies, fmt, c, a[1..], b);
    }
  }

  /** `deleteAll` over a listing whose every entry can be deleted: one
      listing call, one deletion per entry in order, and afterwards exactly
      the listed items' files are gone. */
  lemma DeleteAllRemovesListed(replies: Replies, fmt: Formatter, c: Option<string>, files: map<string, string>)
    requires CollectionSet(c)
    requires replies.listContents(ListingDir(c)).Returned?
    requires var listing := replies.listContents(ListingDir(c)).value;
      forall j :: 0 <= j < |listing| ==> DeleteRun(replies, fmt, c, listing[j].filename).result.Ok?
    ensures var listing := replies.listContents(ListingDir(c)).value;
      var run := DeleteAllRun(replies, fmt, c);
      run.result.Ok? &&
      run.calls == [ListContentsCall(ListingDir(c))] + DeleteCalls(replies, fmt, c, listing) &&
      ApplyAll(replies, files, run.calls) == files - Paths(c, fmt.format, listing)
  {
    var listing := replies.listContents(ListingDir(c)).value;
    DeleteEachAll(replies, fmt, c, listing);
    ApplyAllConcat(replies, files, [ListContentsCall(ListingDir(c))], DeleteCalls(replies, fmt, c, listing));
    DeletionsRemovePaths(replies, fmt, c, listing, files);
  }

  /** Deleting entries up to and including one that fails removes the
      files of the entries before it and nothing else. */
  lemma DeletionsUpToFailure(replies: Replies, fmt: Formatter, c: Option<string>, entries: seq<Entry>, files: map<string, string>, i: nat)
    requires CollectionSet(c)
    requires i < |entries|
    requires forall j :: 0 <= j < i ==> DeleteRun(replies, fmt, c, entries[j].filename).result.Ok?
    requires DeleteRun(replies, fmt, c, entries[i].filename).result.Err?
    ensures ApplyAll(replies, files, DeleteCalls(replies, fmt, c, entries[..i + 1])) == files - Paths(c, fmt.format, entries[..i])
  {
    assert entries[..i + 1] == entries[..i] + [entries[i]];
    DeleteCallsConcat(replies, fmt, c, entries[..i], [entries[i]]);
    var done := DeleteCalls(replies, fmt, c, entries[..i]);
    var path := FilePath(c, fmt.format, entries[i].filename).value;
    assert [entries[i]][1..] == [];
    assert DeleteCalls(replies, fmt, c, [entries[i]]) == [DeleteCall(path)];
    assert forall j :: 0 <= j < i ==> entries[..i][j] == entries[j];
    DeletionsRemovePaths(replies, fmt, c, entries[..i], files);
    ApplyAllConcat(replies, files, done, [DeleteCall(path)]);
    assert [DeleteCall(path)][1..] == [];
  }

  /** `deleteAll` stops at the first entry it cannot delete and throws that
      entry's exception; the files of the entries before it are gone, and
      every other file is untouched. */
  lemma DeleteAllFailFast(replies: Replies, fmt: Formatter, c: Option<string>, files: map<string, string>, i: nat)
    requires CollectionSet(c)
    requires replies.listContents(ListingDir(c)).Returned?
    requires var listing := replies.listContents(ListingDir(c)).value;
      i < |listing| &&
      (forall j :: 0 <= j < i ==> DeleteRun(replies, fmt, c, listing[j].filename).result.Ok?) &&
      DeleteRun(replies, fmt, c, listing[i].filename).result.Err?
    ensures var listing := replies.listContents(ListingDir(c)).value;
      var run := DeleteAllRun(replies, fmt, c);
      run.result == DeleteRun(replies, fmt, c, listing[i].filename).result &&
      run.calls == [ListContentsCall(ListingDir(c))] + DeleteCalls(replies, fmt, c, listing[..i + 1]) &&
      ApplyAll(replies, files, run.calls) == files - Paths(c, fmt.format, listing[..i])
  {
    var listing := replies.listContents(ListingDir(c)).value;
    var dir := ListingDir(c);
    DeleteEachFailFast(replies, fmt, c, listing, i);
    var calls := DeleteCalls(replies, fmt, c, listing[..i + 1]);
    assert DeleteAllRun(replies, fmt, c).calls == [ListContentsCall(dir)] + calls;
    DeletionsUpToFailure(replies, fmt, c, listing, files, i);
    ApplyAllConcat(replies, files, [ListContentsCall(dir)], calls);
    QueriesChangeNothing(replies, files, [ListContentsCall(dir)]);
  }

  /** `deleteAll` does not check the collection itself: without one it
      lists the empty name, succeeds on an empty listing and otherwise fails
      on the first entry with CollectionException, deleting nothing. */
  lemma DeleteAllWithoutCollection(replies: Replies, fmt: Formatter, c: Option<string>)
    requires !CollectionSet(c)
    requires replies.listContents(ListingDir(c)).Returned?
    ensures var listing := replies.listContents(ListingDir(c)).value;
      DeleteAllRun(replies, fmt, c) ==
      Run(if listing == [] then Ok(()) else Err(CollectionException("Collection not set.", "")),
          [ListContentsCall(ListingDir(c))])
  {
  }

  // ---------------------------------------------------------------------
  // deleteCollection

  /** With `empty`, `deleteCollection` deletes the directory and succeeds
      exactly when that returns true; false becomes DeleteException. Without
      it the directory is never deleted: a non-empty listing throws
      CollectionNotEmptyException and an empty one DeleteException whose
      cause is PHP's warning about the unassigned `$response`, and no file
      changes. An exception from the primitive passes through. */
  lemma DeleteCollectionOutcomes(replies: Replies, name: string, empty: bool, files: map<string, string>)
    ensures var run := DeleteCollectionRun(replies, name, empty);
      if empty then
        run.calls == [DeleteDirCall(name)] &&
        (run.result.Ok? <==> replies.deleteDir(name) == Returned(true)) &&
        (replies.deleteDir(name) == Returned(false) ==>
           run.result == Err(DeleteException("Unable to delete collection.", replies.lastError))) &&
        (replies.deleteDir(name).Escaped? ==> run.result == Err(Uncaught(replies.deleteDir(name).exception)))
      else
        run.calls == [ListContentsCall(name)] &&
        DeleteDirCall(name) !in run.calls &&
        ApplyAll(replies, files, run.calls) == files &&
        run.result.Err? &&
        (run.result.error.CollectionNotEmptyException? <==>
           replies.listContents(name).Returned? && |replies.listContents(name).value| > 0) &&
        (replies.listContents(name) == Returned([]) ==>
           run.result.error == DeleteException("Unable to delete collection.", UndefinedResponseWarning)) &&
        (replies.listContents(name).Escaped? ==> run.result.error == Uncaught(replies.listContents(name).exception))
  {
  }
}

# Suitcase store, modelled in Dafny

Suitcase is a small PHP key/value store on top of a Flysystem filesystem.
Each item is an array saved as one file, at `<collection>/<key><extension>`.
The store's format (JSON by default, or XML, YAML or CSV through a
serializer) encodes the item to text and decodes it back. The store turns
the failures it expects from the filesystem and the format into its own
exceptions. Any other exception from Flysystem or the serializer passes
through it unchanged; the model calls such an exception `Uncaught`.

This project models:

* the `Store` class: `setCollection`, `getFilePath`, `save` with its
  protected `write` and `update`, `read`, `readAll`, `delete`,
  `deleteAll` and `deleteCollection`;
* the four formats: `getExtension`, `encode` and `decode`.

It proves what these operations promise.

## Layout

| file | module | contents |
|---|---|---|
| `values.dfy` | `Values` | Item values. A PHP array is an ordered list of key/value pairs, and `Put` models `$a[$k] = $v`. Also PHP string truthiness (`Falsy`). |
| `exceptions.dfy` | `Exceptions` | The store's exceptions, each with a message and a cause, plus the plain `\Exception` the JSON format throws and `Uncaught`, a foreign exception passed on. `Result` is a value or the exception thrown instead. |
| `formats.dfy` | `Formats` | The formats' extensions. `Encode` and `Decode` work over an abstract serializer and abstract `json_encode`/`json_decode`. |
| `filesystem.dfy` | `Filesystem` | The filesystem as a class, `FakeFilesystem`. Every answer is injected in advance as a function of the call's arguments. An answer can return a value, raise the exception the store catches, or throw any other exception. Every call is recorded in `log`, and the file contents in `files` change only when a write, update, delete or deleteDir succeeds. |
| `store.dfy` | `Suitcase` | Per operation, a function saying what the operation returns or throws and which filesystem calls it makes (`Run`). The class `Store` implements the operations imperatively and is proved to follow those functions. |
| `store_properties.dfy` | `StoreProperties` | The properties of the operations, as lemmas over the `Run` functions. |

Every filesystem operation of `Store` (all its methods except the
constructor and `SetCollection`) promises three things:

* its result equals the result of its `Run` function;
* the filesystem's log grew by exactly that function's calls;
* the stored files are the old files with those calls' effects applied.

The promises of the source are then proved about the `Run` functions. A
lemma about `SaveRun` or `DeleteAllRun` is therefore a statement about
what `Store.Save` or `Store.DeleteAll` does to the filesystem.

### Where the code and its documentation differ

The model follows the code in each of these cases.

* **`readAll` and `deleteAll` skip the collection check.** Their
  docblocks promise a CollectionException when no collection is set. The
  code instead lists `$this->collection` as it is; an unset collection
  reaches Flysystem as the empty directory name. Only the per-item
  `read`/`delete` checks the collection. So with no collection and an
  empty listing, both operations succeed, and with a non-empty listing
  the first item throws CollectionException (`ReadAllWithoutCollection`,
  `DeleteAllWithoutCollection`).
* **`deleteCollection($c, false)` never deletes.** It only checks that
  the listing is empty. It assigns `$response` only in the `$empty`
  branch, so with an empty listing it reaches `!$response` unset. PHP
  then emits its own "Undefined variable $response" warning, and with no
  error handler installed the method throws DeleteException with that
  warning as the cause (`error_get_last()` reports it; no filesystem call
  failed). No call on the non-empty branch deletes anything
  (`DeleteCollectionOutcomes`).
* **The JSON format has no `getExtension` method.** `Json` implements
  `FormatInterface`, which declares only `encode` and `decode`.
  `getFilePath` calls `getExtension()` on every format, so the default
  store would fail there. The model gives JSON the extension of its
  `FILE_EXT` constant, `.json`.
* **The tests describe a different JSON format.** `tests/FormatJsonTest.php`
  and the JSON cases of `tests/StoreTest.php` expect a JSON format built on
  the serializer: `serialize(..., Format::JSON)`, a `getExtension()`
  method, and a FormatException on failure. `src/Format/Json.php`, which
  the model follows, calls `json_encode`/`json_decode` itself and throws a
  plain `\Exception`. Hence `PlainException` in `Formats.Encode`,
  `Formats.Decode` and `StoreProperties.SaveErrorKinds`.
* **`FormatInterface` declares `encode` and `decode` `static`.** `Xml`,
  `Yaml` and `Csv` define them as instance methods that use
  `$this->serializer`; only `Json` matches the declaration. PHP rejects
  an instance method implementing a static interface method with a fatal
  error when the class is compiled ("Cannot make static method ... non
  static"), so as written `Xml`, `Yaml` and `Csv` cannot be loaded at
  all. The model follows the instance methods the code evidently intends
  and calls every format's codec the same way.

## Model

| member | source | states |
|---|---|---|
| Formats.Extension | src/Format/Json.php:7-10 | each format's extension, separator included: `.json` (the JSON format's constant), `.xml`, `.yml`, `.csv` |
| Formats.ExtensionInjective | src/Store.php:324 | different formats have different extensions |
| Formats.Encode | src/Format/Json.php:15-25 | JSON: encode succeeds exactly when `json_encode` gives a non-false string, which is returned unchanged; otherwise a plain exception "Error encoding data: " plus json_last_error_msg() ("No error" after a false string). Other formats: the serializer's output unchanged, or FormatException("Error encoding data.") with the serializer's message. Any other exception from the codec passes through unchanged |
| Formats.Decode | src/Format/Json.php:30-39 | JSON: decode succeeds exactly when `json_decode` does not return null; otherwise a plain exception "Error decoding data: " plus json_last_error_msg(). Other formats: the deserialized array unchanged, or FormatException("Error decoding data.") with the serializer's message. Any other exception from the codec passes through unchanged |
| Formats.XmlFormat | src/Format/Xml.php:13-44 | XML files end in `.xml`; encode and decode pass the serializer's XML result through, wrap its InvalidArgumentException in FormatException with its message, and let any other exception through |
| Formats.YamlFormat | src/Format/Yaml.php:13-44 | YAML files end in `.yml`; encode and decode pass the serializer's YAML result through, wrap its InvalidArgumentException in FormatException with its message, and let any other exception through |
| Formats.CsvFormat | src/Format/Csv.php:13-44 | CSV files end in `.csv`; encode and decode pass the serializer's CSV result through, wrap its InvalidArgumentException in FormatException with its message, and let any other exception through |
| Formats.RoundTrip | src/Format/FormatInterface.php:7-33 | when the underlying codec round-trips, decoding what encode returned gives back the original item, for every format |
| Values.PutGet | src/Store.php:247 | after `$data[$k] = $v`, reading `$k` gives `$v` and every other key reads as before |
| Values.PutKeys | src/Store.php:247 | assignment keeps the key order; a new key goes last, an existing key keeps its position |
| Values.AppendNewDistinct | src/Store.php:246-248 | the keys built by the `readAll` loop are distinct, and they are exactly the keys assigned |
| Suitcase.FilePath | src/Store.php:318-325 | the path is `collection + "/" + key + extension`; CollectionException("Collection not set.") exactly when the collection is missing or PHP-false ("" or "0") |
| Suitcase.Chain | src/Store.php:196 | a fluent operation returns the store itself exactly when it did not throw, and the exception unchanged otherwise |
| Suitcase.Store.constructor | src/Store.php:52-63 | the store keeps the filesystem, uses JSON unless another format is given, and starts with no collection |
| Suitcase.Store.SetCollection | src/Store.php:74-78 | the collection becomes the given name and the store itself is returned |
| Suitcase.Store.DeleteCollection | src/Store.php:98-115 | result, calls and effect on the files are those of `DeleteCollectionRun` |
| Suitcase.Store.Write | src/Store.php:128-140 | one `write` call; FileExistsException becomes SaveException("Unable to write data. File already exists.") with its message; false becomes SaveException("Unable to write data.") with the last error; any other exception passes through |
| Suitcase.Store.Update | src/Store.php:153-165 | one `update` call; FileNotFoundException becomes SaveException("Unable to update data. File not found."); false becomes SaveException("Unable to update data.") with the last error; any other exception passes through |
| Suitcase.Store.Save | src/Store.php:183-197 | result, calls in order and effect on the files are those of `SaveRun` |
| Suitcase.Store.Read | src/Store.php:213-228 | result, calls and unchanged files per `ReadRun` |
| Suitcase.Store.ReadAll | src/Store.php:241-251 | the loop's result, calls in order and effect on the files are those of `ReadAllRun` |
| Suitcase.Store.Delete | src/Store.php:267-282 | result, calls and effect on the files per `DeleteRun` |
| Suitcase.Store.DeleteAll | src/Store.php:295-304 | the loop's result, calls in order and effect on the files are those of `DeleteAllRun` |
| StoreProperties.FilePathInjective | src/Store.php:324 | within one collection and format, two keys share a path only when they are equal |
| StoreProperties.FilePathDeterminesFormat | src/Store.php:324 | the same key under two formats has two different paths |
| StoreProperties.ItemOperationsNeedCollection | src/Store.php:318-322 | without a collection, save, read and delete throw CollectionException before any filesystem call; save throws it even for an item that cannot be encoded |
| StoreProperties.SaveDispatch | src/Store.php:188-194 | save calls `has` first. If `has` throws, save stops there with that exception. Otherwise it calls `update` exactly when the file exists and `write` exactly when it does not, never both, each with the encoded item |
| StoreProperties.SaveEncodingFails | src/Store.php:185-186 | the format's exception propagates unchanged, before `has` is called |
| StoreProperties.SaveErrorTranslation | src/Store.php:128-165 | each answer of `has`, `write` and `update` maps to success, to the SaveException with that branch's message and cause, or to the uncaught exception unchanged |
| StoreProperties.SaveErrorKinds | src/Store.php:178-194 | before any call, save throws CollectionException or the format's exception (FormatException, the JSON format's plain exception, or one the codec threw). Once the filesystem has been called, it throws SaveException or the exception that `has`, `write` or `update` threw |
| StoreProperties.SaveStoresEncoding | src/Store.php:188-194 | after a successful save, the item's path holds the encoded item and every other file is unchanged |
| StoreProperties.SaveThenRead | src/Store.php:183-228 | reading a saved item gives the saved array, provided the filesystem serves back what it stores, the codec round-trips, and the encoding is not "" or "0" |
| StoreProperties.FalsyEncodingIsUnreadable | src/Store.php:223-225 | stored contents "" or "0" make read throw ReadException("Unable to read data.") |
| StoreProperties.ReadOutcomes | src/Store.php:213-228 | read makes one call at the item's path; a missing file, false, "" and "0" are ReadExceptions with the source's messages; other contents go to the format's decode; any other exception from `read` passes through |
| StoreProperties.ReadFailsIff | src/Store.php:217-225 | read throws ReadException exactly when `read` raised FileNotFoundException or returned false, "" or "0" |
| StoreProperties.DeleteTouchesOnlyTarget | src/Store.php:267-282 | delete makes one call at the item's path and succeeds exactly when the filesystem does; only then is that one file removed; a missing file and false map to the source's DeleteExceptions, any other exception passes through |
| StoreProperties.ReadEachOkIff | src/Store.php:246-248 | the `readAll` loop completes exactly when every listed entry can be read |
| StoreProperties.ReadEachFailFast | src/Store.php:246-248 | the first unreadable entry ends the loop with its exception; no later entry is read |
| StoreProperties.ReadEachContents | src/Store.php:246-248 | a completed loop read every entry in order; its keys are the filenames in first-appearance order, each with what reading it returned |
| StoreProperties.ReadAllReadsEveryEntry | src/Store.php:241-251 | readAll lists, then reads each entry in order. It returns each listed filename once, in first-appearance order, each mapped to its read. |
| StoreProperties.ReadAllFailFast | src/Store.php:244-248 | readAll throws the first failing read's exception and reads nothing after it |
| StoreProperties.ReadAllOkIff | src/Store.php:241-251 | readAll succeeds exactly when listing succeeds and every listed entry can be read |
| StoreProperties.ListingFailurePropagates | src/Store.php:244 | when listing the collection throws, readAll and deleteAll pass that exception on after the one listing call |
| StoreProperties.ReadEachCallsArePrefix | src/Store.php:246-248 | the loop's calls are the reads of some prefix of the listing |
| StoreProperties.ReadCallsQueryOnly | src/Store.php:247 | reading entries makes only read calls |
| StoreProperties.ReadAllChangesNothing | src/Store.php:241-251 | readAll leaves every file as it was, whether it succeeds or fails |
| StoreProperties.ReadAllWithoutCollection | src/Store.php:244 | with no collection, readAll lists the empty name; given a listing, it returns `[]` for an empty one and throws CollectionException otherwise |
| StoreProperties.DeleteEachOkIff | src/Store.php:299-301 | the `deleteAll` loop completes exactly when every listed entry can be deleted |
| StoreProperties.DeleteEachFailFast | src/Store.php:299-301 | the first entry that cannot be deleted ends the loop with its exception; no later entry is deleted |
| StoreProperties.DeleteEachAll | src/Store.php:299-301 | when every entry can be deleted, the loop deletes them all, in order |
| StoreProperties.DeletionsRemovePaths | src/Store.php:299-301 | successful deletions remove exactly the listed entries' files |
| StoreProperties.DeleteCallsConcat | src/Store.php:299-301 | deleting two runs of entries is deleting the first run, then the second |
| StoreProperties.DeletionsUpToFailure | src/Store.php:299-301 | deletions up to and including a failing one remove the files of the entries before it and nothing else |
| StoreProperties.DeleteAllRemovesListed | src/Store.php:295-304 | when every entry can be deleted, deleteAll removes exactly the listed items' files and no other |
| StoreProperties.DeleteAllFailFast | src/Store.php:295-304 | deleteAll throws the first failing delete's exception. The files of earlier entries are gone; every other file is untouched. |
| StoreProperties.DeleteAllWithoutCollection | src/Store.php:297 | with no collection, deleteAll lists the empty name; given a listing, it succeeds on an empty one and otherwise throws CollectionException without deleting |
| StoreProperties.DeleteCollectionOutcomes | src/Store.php:98-115 | with `empty`: deleteDir is called, and deleteCollection succeeds exactly when it returns true; false becomes DeleteException. Without it: no directory deletion and no file change. A non-empty listing throws CollectionNotEmptyException; an empty one throws DeleteException whose cause is PHP's warning about the unassigned `$response`. Any exception from deleteDir or listContents passes through unchanged |

## Left out

- Flysystem is not modelled. Each primitive's answer is a function of that call's arguments only; earlier calls and the stored files never change it. An adapter whose answer depends on its state cannot be described, and nothing is derived from a real directory tree.
- StoreProperties.DeleteAllRemovesListed, StoreProperties.DeleteEachAll: a repeated identical call within one operation gets the same answer. Example: a listing with two entries named `a` (say `a.json` and `a.xml`). deleteAll deletes the same path twice, and the second delete succeeds again; a real adapter would raise FileNotFoundException there.
- `has` is not tied to the stored files either. `SaveDispatch` states the dispatch in terms of `has`'s answer, not the files.
- `read`'s answer is not tied to the stored files; `SaveThenRead` states that link as a precondition.
- A listing entry's metadata other than its `filename` (path, type, timestamps) is not used. Entries for subdirectories are treated like items, as the code would treat them.
- The Ivory serializer and PHP's `json_encode`/`json_decode` are abstract functions. Their round trip is the hypothesis `BackendRoundTrips`. The JSON options (pretty printing, unescaped slashes and Unicode) do not change anything the model states.
- Formats.Extension: JSON's value comes from `Json::FILE_EXT`. `Json` has no `getExtension`, and the store's call to it on a JSON format would fail in PHP.
- A `decode` whose result is not an array is not modelled. At `Store::read`'s `array` return type, a JSON document holding a scalar would raise a TypeError.
- `error_get_last()` after a failed `write`, `update` or `deleteDir` is one opaque string, `lastError`, the same for every call site. The case where it returns null is not modelled.
- Suitcase.Store.DeleteCollection, StoreProperties.DeleteCollectionOutcomes: the empty-listing DeleteException's cause is PHP's own undefined-variable warning, not a filesystem error; the model fixes it to PHP 8's wording (PHP 7 says "Undefined variable: response"). An error handler that turns warnings into exceptions (as PHPUnit's does) would throw its own exception there instead of the DeleteException; that is not modelled.
- Item values have no floats and no objects.
- PHP's conversion of numeric-string array keys to integers is not modelled. Keys stay strings; their order and uniqueness are unaffected.
- `setCollection` accepts any PHP value; the model takes a string. Truthiness is the string rule ("" and "0" are false).
- The `$options` array and `new $format($serializer)` are replaced by the `Format` variant. A class name that is not a format is not modelled.
- A primitive that throws an exception the store does not catch (for example RootViolationException from `deleteDir`) is taken to have changed no file.
- Exception codes and previous-exception chaining are not modelled. Exceptions carry the message and the cause (`getError()`).
- Concurrent access to the filesystem is not modelled.

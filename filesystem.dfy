/** The filesystem the store talks to, as a fake: each primitive's answer is
    injected in advance (it succeeds, returns false, raises the exception the
    store catches, or throws another), every call is recorded, and the stored
    contents change only on successful writes, updates and deletions (of
    files or directories). */
module Filesystem {
  import opened Exceptions

  /** One entry of a directory listing; `filename` has no extension. */
  datatype Entry = Entry(path: string, filename: string)

  /** The answer of write, update and delete: true, false, the exception
      the store catches, with its message (FileExistsException for write,
      FileNotFoundException for update and delete), or any other exception. */
  datatype Reply = Succeeded | ReturnedFalse | Raised(message: string) | Threw(exception: ForeignException)

  /** The answer of read: the contents, false, FileNotFoundException, or any
      other exception. */
  datatype ReadReply = Contents(data: string) | ReadFalse | NotFound(message: string) | ReadThrew(exception: ForeignException)

  /** The answer of a primitive the store catches nothing from: its return
      value, or the exception that escaped it. */
  datatype Answer<T> = Returned(value: T) | Escaped(exception: ForeignException)

  /** The injected answers, per argument, and the message error_get_last()
      reports after a primitive returned false. */
  datatype Replies = Replies(
    has: string -> Answer<bool>,
    write: (string, string) -> Reply,
    update: (string, string) -> Reply,
    read: string -> ReadReply,
    delete: string -> Reply,
    deleteDir: string -> Answer<bool>,
    listContents: string -> Answer<seq<Entry>>,
    lastError: string)

  /** A call the store made on the filesystem. */
  datatype Call =
    | HasCall(path: string)
    | WriteCall(path: string, data: string)
    | UpdateCall(path: string, data: string)
    | ReadCall(path: string)
    | DeleteCall(path: string)
    | DeleteDirCall(dir: string)
    | ListContentsCall(dir: string)

  /** The call changes stored contents and nothing else reads them. */
  predicate Mutating(c: Call) {
    c.WriteCall? || c.UpdateCall? || c.DeleteCall? || c.DeleteDirCall?
  }

  /** `path` lies below directory `dir`. */
  predicate InDirectory(path: string, dir: string) {
    |dir| < |path| && path[..|dir| + 1] == dir + "/"
  }

  /** The stored contents after one call, given its injected answer; a
      call that fails or throws changes nothing. */
  function Effect(replies: Replies, files: map<string, string>, c: Call): map<string, string> {
    match c
    case WriteCall(p, d) => if replies.write(p, d) == Succeeded then files[p := d] else files
    case UpdateCall(p, d) => if replies.update(p, d) == Succeeded then files[p := d] else files
    case DeleteCall(p) => if replies.delete(p) == Succeeded then files - {p} else files
    case DeleteDirCall(dir) =>
      if replies.deleteDir(dir) == Returned(true) then map p | p in files && !InDirectory(p, dir) :: files[p] else files
    case _ => files
  }

  /** The stored contents after a sequence of calls. */
  function ApplyAll(replies: Replies, files: map<string, string>, calls: seq<Call>): map<string, string>
    decreases |calls|
  {
    if calls == [] then files else ApplyAll(replies, Effect(replies, files, calls[0]), calls[1..])
  }

  /** Running two call sequences one after the other. */
  lemma {:induction false} ApplyAllConcat(replies: Replies, files: map<string, string>, a: seq<Call>, b: seq<Call>)
    ensures ApplyAll(replies, files, a + b) == ApplyAll(replies, ApplyAll(replies, files, a), b)
    decreases |a|
  {
    if a == [] {
      assert a + b == b;
    } else {
      assert (a + b)[0] == a[0] && (a + b)[1..] == a[1..] + b;
      ApplyAllConcat(replies, Effect(replies, files, a[0]), a[1..], b);
    }
  }

  /** Calls that only query leave the contents as they were. */
  lemma {:induction false} QueriesChangeNothing(replies: Replies, files: map<string, string>, calls: seq<Call>)
    requires forall i :: 0 <= i < |calls| ==> !Mutating(calls[i])
    ensures ApplyAll(replies, files, calls) == files
    decreases |calls|
  {
    if calls != [] {
      QueriesChangeNothing(replies, files, calls[1..]);
    }
  }

  class FakeFilesystem {
    const replies: Replies
    var files: map<string, string>
    var log: seq<Call>

    constructor (replies: Replies, files: map<string, string>)
      ensures this.replies == replies && this.files == files && log == []
    {
      this.replies := replies;
      this.files := files;
      log := [];
    }

    /** Records a call and applies its effect. */
    method Perform(c: Call)
      modifies this
      ensures log == old(log) + [c]
      ensures files == Effect(replies, old(files), c)
    {
      log := log + [c];
      files := Effect(replies, files, c);
    }

    method Has(path: string) returns (present: Answer<bool>)
      modifies this
      ensures present == replies.has(path)
      ensures log == old(log) + [HasCall(path)] && files == old(files)
    {
      Perform(HasCall(path));
      present := replies.has(path);
    }

    method Write(path: string, data: string) returns (reply: Reply)
      modifies this
      ensures reply == replies.write(path, data)
      ensures log == old(log) + [WriteCall(path, data)]
      ensures files == if reply == Succeeded then old(files)[path := data] else old(files)
    {
      Perform(WriteCall(path, data));
      reply := replies.write(path, data);
    }

    method Update(path: string, data: string) returns (reply: Reply)
      modifies this
      ensures reply == replies.update(path, data)
      ensures log == old(log) + [UpdateCall(path, data)]
      ensures files == if reply == Succeeded then old(files)[path := data] else old(files)
    {
      Perform(UpdateCall(path, data));
      reply := replies.update(path, data);
    }

    method Read(path: string) returns (reply: ReadReply)
      modifies this
      ensures reply == replies.read(path)
      ensures log == old(log) + [ReadCall(path)] && files == old(files)
    {
      Perform(ReadCall(path));
      reply := replies.read(path);
    }

    method Delete(path: string) returns (reply: Reply)
      modifies this
      ensures reply == replies.delete(path)
      ensures log == old(log) + [DeleteCall(path)]
      ensures files == if reply == Succeeded then old(files) - {path} else old(files)
    {
      Perform(DeleteCall(path));
      reply := replies.delete(path);
    }

    method DeleteDir(dir: string) returns (deleted: Answer<bool>)
      modifies this
      ensures deleted == replies.deleteDir(dir)
      ensures log == old(log) + [DeleteDirCall(dir)]
      ensures files == Effect(replies, old(files), DeleteDirCall(dir))
      ensures deleted == Returned(true) ==> forall p :: p in files <==> p in old(files) && !InDirectory(p, dir)
      ensures deleted != Returned(true) ==> files == old(files)
    {
      Perform(DeleteDirCall(dir));
      deleted := replies.deleteDir(dir);
    }

    method ListContents(dir: string) returns (listing: Answer<seq<Entry>>)
      modifies this
      ensures listing == replies.listContents(dir)
      ensures log == old(log) + [ListContentsCall(dir)] && files == old(files)
    {
      Perform(ListContentsCall(dir));
      listing := replies.listContents(dir);
    }
  }
}

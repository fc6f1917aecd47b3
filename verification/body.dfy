/**
 * `attachToBody` and `defaultConsumer` (index.js:15-63): the `addToBody` mode, which collects
 * every part of a multipart request into one dictionary keyed by field name and publishes it as
 * `req.body` when parsing completes without an error.
 *
 * The dictionary is the field `body` of an `Assembler`; each file part gets a `PartConsumer`,
 * the closure `defaultConsumer` creates, which buffers the part's chunks and writes into the
 * part's record of that same dictionary.
 */
module Body {
  import opened Wrappers
  import Request
  import Multipart
  import Coordinator

  /** The record stored for one file part: `{data, filename, encoding, mimetype, limit}`. */
  datatype FileRecord = FileRecord(
    data: seq<bv8>,
    filename: string,
    encoding: string,
    mimetype: string,
    limit: bool)

  /** A value of the body dictionary: a plain field's string, or the file parts of a field. */
  datatype Value = Text(text: string) | Files(records: seq<FileRecord>)

  /** The file records kept under `field`, none if the key is absent or holds a string. */
  function Records(body: map<string, Value>, field: string): (r: seq<FileRecord>)
  {
    if field in body && body[field].Files? then body[field].records else []
  }

  /** `Buffer.concat`: the chunks joined in order. */
  function Concat(chunks: seq<seq<bv8>>): (r: seq<bv8>)
  {
    if chunks == [] then [] else chunks[0] + Concat(chunks[1..])
  }

  /** Joining two runs of chunks is joining their joins. */
  lemma {:induction false} ConcatAppend(a: seq<seq<bv8>>, b: seq<seq<bv8>>)
    ensures Concat(a + b) == Concat(a) + Concat(b)
  {
    if a == [] {
      assert a + b == b;
    } else {
      assert (a + b)[0] == a[0];
      assert (a + b)[1..] == a[1..] + b;
      ConcatAppend(a[1..], b);
    }
  }

  /**
   * In-order concatenation: byte `j` of chunk `i` sits in the joined data right after the bytes
   * of the chunks before it (index.js:58, index.js:61).
   */
  lemma ConcatAt(chunks: seq<seq<bv8>>, i: nat, j: nat)
    requires i < |chunks| && j < |chunks[i]|
    ensures |Concat(chunks[..i])| + j < |Concat(chunks)|
    ensures Concat(chunks)[|Concat(chunks[..i])| + j] == chunks[i][j]
  {
    assert chunks == chunks[..i] + ([chunks[i]] + chunks[i + 1..]);
    ConcatAppend(chunks[..i], [chunks[i]] + chunks[i + 1..]);
    assert Concat([chunks[i]] + chunks[i + 1..]) == chunks[i] + Concat(chunks[i + 1..]) by {
      assert ([chunks[i]] + chunks[i + 1..])[0] == chunks[i];
      assert ([chunks[i]] + chunks[i + 1..])[1..] == chunks[i + 1..];
    }
  }

  /** The state `attachToBody` keeps for one request: `body`, `fileCount` and `req.body`. */
  class Assembler {
    var body: map<string, Value>
    var fileCount: map<string, nat>
    /** `req.body = body` has been executed; `req.body` then shares the dictionary. */
    var published: bool

    /**
     * `fileCount[field]` is the number of file records under `field`, so the next file part of
     * a field lands right after the previous ones. A key that a plain field overwrote keeps its
     * count.
     */
    ghost predicate Valid()
      reads this
    {
      && fileCount.Keys <= body.Keys
      && forall field :: field in body && body[field].Files? ==>
           field in fileCount && fileCount[field] == |body[field].records|
    }

    /** `body[field][index]` is a file record. */
    ghost predicate HasRecord(field: string, index: nat)
      reads this
    {
      field in body && body[field].Files? && index < |body[field].records|
    }

    /** `req.body` as the route sees it: the dictionary once published. */
    ghost function RequestBody(): (r: Option<map<string, Value>>)
      reads this
    {
      if published then Some(body) else None
    }

    /** `const body = { }` and `const fileCount = { }`. */
    constructor ()
      ensures Valid() && body == map[] && fileCount == map[] && !published
    {
      body, fileCount, published := map[], map[], false;
    }

    /**
     * The handler given to `multipart` (index.js:24-36): the k-th file part of a field, k = 0,
     * 1, 2, ..., is stored at `body[field][k]` with empty data and no limit flag, and the
     * default consumer is attached to it. A file part for a key that a plain field set is a
     * runtime error in the source and is excluded.
     */
    method OnFile(field: string, filename: string, encoding: string, mimetype: string)
      returns (consumer: PartConsumer)
      requires Valid()
      requires field !in body || body[field].Files?
      modifies this
      ensures Valid()
      ensures consumer.index == |Records(old(body), field)|
      ensures body == old(body)[field := Files(Records(old(body), field)
                        + [FileRecord([], filename, encoding, mimetype, false)])]
      ensures fileCount == old(fileCount)[field := consumer.index + 1]
      ensures published == old(published)
      ensures fresh(consumer) && consumer.target == this && consumer.field == field
      ensures consumer.fileData == []
    {
      var k := if field in fileCount then fileCount[field] else 0;
      var records := if field in body then body[field].records else [];
      // `body[field][fileCount[field]] = ...` writes one past the last record: it appends
      assert k == |records|;
      body := body[field := Files(records + [FileRecord([], filename, encoding, mimetype, false)])];
      consumer := new PartConsumer(this, field, k);
      fileCount := fileCount[field := k + 1];
    }

    /** The parser's `field` event (index.js:51-53): the plain value replaces the key. */
    method OnField(key: string, value: string)
      requires Valid()
      modifies this
      ensures Valid()
      ensures body == old(body)[key := Text(value)]
      ensures fileCount == old(fileCount) && published == old(published)
    {
      body := body[key := Text(value)];
    }

    /**
     * The completion callback given to `multipart` (index.js:44-49): the dictionary becomes
     * `req.body` only when there is no error, and `next` receives the error either way.
     */
    method Complete(err: Option<Error>) returns (next: Option<Error>)
      modifies this
      ensures next == err
      ensures published == (old(published) || err.None?)
      ensures body == old(body) && fileCount == old(fileCount)
      ensures err.None? ==> RequestBody() == Some(body)
      ensures err.Some? ==> RequestBody() == old(RequestBody())
    {
      if err.None? {
        published := true;
      }
      next := err;
    }
  }

  /** The closure `defaultConsumer` creates for one file part (index.js:56-63). */
  class PartConsumer {
    const target: Assembler
    const field: string
    const index: nat
    /** `const fileData = []`: the chunks received so far. */
    var fileData: seq<seq<bv8>>

    constructor (target: Assembler, field: string, index: nat)
      ensures this.target == target && this.field == field && this.index == index
      ensures fileData == []
    {
      this.target, this.field, this.index := target, field, index;
      fileData := [];
    }

    /** The part's `data` event: the chunk is kept after the earlier ones. */
    method OnData(chunk: seq<bv8>)
      modifies this
      ensures fileData == old(fileData) + [chunk]
    {
      fileData := fileData + [chunk];
    }

    /** The part's `limit` event: its record is flagged and nothing else changes. */
    method OnLimit()
      requires target.Valid() && target.HasRecord(field, index)
      modifies target
      ensures target.Valid()
      ensures target.body == old(target.body)[field := Files(old(target.body[field].records)[index :=
                old(target.body[field].records[index]).(limit := true)])]
      ensures target.fileCount == old(target.fileCount) && target.published == old(target.published)
    {
      var records := target.body[field].records;
      target.body := target.body[field := Files(records[index := records[index].(limit := true)])];
    }

    /** The part's `end` event: the record's data becomes the chunks joined in order. */
    method OnEnd()
      requires target.Valid() && target.HasRecord(field, index)
      modifies target
      ensures target.Valid()
      ensures target.body == old(target.body)[field := Files(old(target.body[field].records)[index :=
                old(target.body[field].records[index]).(data := Concat(fileData))])]
      ensures target.fileCount == old(target.fileCount) && target.published == old(target.published)
    {
      var records := target.body[field].records;
      target.body := target.body[field := Files(records[index := records[index].(data := Concat(fileData))])];
    }
  }

  /**
   * A file part of a request in `addToBody` mode: `wrap` counts it on the session before its
   * end-of-stream observer is attached (index.js:145-146), then runs the handler of
   * `attachToBody` on it (index.js:147, index.js:24-36).
   */
  method ReceiveFile(session: Multipart.Session, assembler: Assembler,
                     field: string, filename: string, encoding: string, mimetype: string)
    returns (part: nat, consumer: PartConsumer)
    requires session.Valid() && !session.finished
    requires assembler.Valid() && (field !in assembler.body || assembler.body[field].Files?)
    modifies session, assembler
    ensures session.Valid()
    ensures session.Snapshot() == Coordinator.Step(old(session.Snapshot()), Coordinator.Discover)
    ensures part == old(session.files)
    ensures assembler.Valid() && assembler.published == old(assembler.published)
    ensures consumer.index == |Records(old(assembler.body), field)|
    ensures assembler.body == old(assembler.body)[field := Files(Records(old(assembler.body), field)
                                + [FileRecord([], filename, encoding, mimetype, false)])]
    ensures assembler.fileCount == old(assembler.fileCount)[field := consumer.index + 1]
    ensures fresh(consumer) && consumer.target == assembler && consumer.field == field
    ensures consumer.fileData == []
  {
    part := session.Wrap();
    consumer := assembler.OnFile(field, filename, encoding, mimetype);
  }

  /**
   * `attachToBody` (index.js:15-24, index.js:49): a request that the content type parser did
   * not mark goes straight to `next()`; otherwise an empty dictionary is set up and
   * `multipart` is started with the handler and the completion callback above, which are
   * functions, so it passes its guards and creates a parser.
   */
  method AttachToBody(req: Request.Message)
    returns (calledNext: bool, assembler: Assembler?, session: Multipart.Session?)
    ensures calledNext <==> !Request.IsMultipart(req)
    ensures calledNext ==> assembler == null && session == null
    ensures !calledNext ==> assembler != null && fresh(assembler) && assembler.Valid()
    ensures !calledNext ==> assembler.body == map[] && !assembler.published
    ensures !calledNext ==> session != null && fresh(session) && session.Valid()
    ensures !calledNext ==> session.Snapshot() == Coordinator.Init()
  {
    if !Request.IsMultipart(req) {
      return true, null, null;
    }
    calledNext := false;
    assembler := new Assembler();
    var outcome;
    outcome, session := Multipart.Start(req, true, true);
  }
}

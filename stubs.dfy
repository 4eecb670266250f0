/** The stub list read from `stubsConfigFile` and the rewrite of the response
    files it references (`normalizeResponseFilePaths`). */
module Stubs {
  import opened Wrappers
  import opened Paths

  /** The `response` of a stub entry: its `file` and every other field. */
  datatype Response = Response(file: Option<string>, others: map<string, Json>)

  /** One entry of the loaded stub list: an object `{request, response}`, with
      `response` `None` when the entry has no `response` (or a null one), or a
      `null`/`undefined` element, which cannot be destructured. */
  datatype Stub =
    | Stub(request: Json, response: Option<Response>)
    | Nullish

  /** What `require` gives back for the stub configuration file: an array of
      entries, or any other value (an object, a string, a number). */
  datatype StubsConfig = StubList(entries: seq<Stub>) | NotAList(value: Json)

  /** One entry of the list handed to Stubby. An entry whose response has a
      truthy `file` keeps a (rewritten) `response`; any other entry becomes
      `{request, data}`, which has no `response` and carries the whole input. */
  datatype NormalizedStub =
    | WithResponse(request: Json, response: Response)
    | WithData(request: Json, data: seq<Stub>)

  /** The absolute path that a response `file` is rewritten to. */
  function RewriteFile(root: string, ops: PathOps, file: string): string
  {
    ops.resolve(root, ops.normalize(ReplacePathForWindows(file)))
  }

  /** The entry is an object with a `response`, so the callback does not throw on it. */
  predicate HasResponse(entry: Stub)
  {
    entry.Stub? && entry.response.Some?
  }

  /** The TypeError the callback throws on an entry it cannot handle. */
  function EntryError(entry: Stub): Error
  {
    if entry.Nullish? then EntryNullish else ResponseUndefined
  }

  /** The callback of `data.map`, applied to one entry; `data` is the whole input. */
  function NormalizeEntry(entry: Stub, data: seq<Stub>, root: string, ops: PathOps): (r: Result<NormalizedStub>)
    ensures r.Ok? <==> HasResponse(entry)
    ensures r.Err? ==> r.error == EntryError(entry)
    ensures r.Ok? ==> r.value.request == entry.request
  {
    match entry
    case Nullish => Err(EntryNullish)
    case Stub(request, None) => Err(ResponseUndefined)
    case Stub(request, Some(response)) =>
      if Truthy(response.file) then
        Ok(WithResponse(request, response.(file := Some(RewriteFile(root, ops, response.file.value)))))
      else
        Ok(WithData(request, data))
  }

  /** `entries[k]` is the first entry the callback throws on. */
  predicate FirstFailure(entries: seq<Stub>, k: int)
  {
    0 <= k < |entries| && !HasResponse(entries[k]) &&
    forall j | 0 <= j < k :: HasResponse(entries[j])
  }

  /** `entries.map(...)` with the callback above; the first entry that throws
      aborts the whole map with its error. */
  function MapEntries(entries: seq<Stub>, data: seq<Stub>, root: string, ops: PathOps): (r: Result<seq<NormalizedStub>>)
    ensures r.Ok? <==> forall i | 0 <= i < |entries| :: HasResponse(entries[i])
    ensures r.Err? ==> exists k :: FirstFailure(entries, k) && r.error == EntryError(entries[k])
    ensures r.Ok? ==> |r.value| == |entries|
    ensures r.Ok? ==> forall i | 0 <= i < |entries| :: NormalizeEntry(entries[i], data, root, ops) == Ok(r.value[i])
    decreases |entries|
  {
    if entries == [] then Ok([])
    else
      match NormalizeEntry(entries[0], data, root, ops)
      case Err(e) =>
        assert FirstFailure(entries, 0);
        Err(e)
      case Ok(head) =>
        match MapEntries(entries[1..], data, root, ops)
        case Err(e) =>
          var k :| FirstFailure(entries[1..], k) && e == EntryError(entries[1..][k]);
          assert FirstFailure(entries, k + 1);
          Err(e)
        case Ok(tail) =>
          assert forall i | 1 <= i < |entries| :: entries[i] == entries[1..][i - 1];
          Ok([head] + tail)
  }

  /** `normalizeResponseFilePaths(data, rootPath)` on an array. On success the
      result has one entry per input entry, in the same order, each with the
      input's `request`; an entry whose `response.file` is truthy keeps every
      other response field and gets `file` rewritten against the root; any
      other entry becomes `{request, data}` with the whole input as `data` and
      no `response`. It throws exactly when some entry is `null`/`undefined`
      or has no `response`, with the TypeError of the first such entry. */
  function NormalizeResponseFilePaths(data: seq<Stub>, root: string, ops: PathOps): (r: Result<seq<NormalizedStub>>)
    ensures r.Ok? <==> forall i | 0 <= i < |data| :: HasResponse(data[i])
    ensures r.Err? ==> exists k :: FirstFailure(data, k) && r.error == EntryError(data[k])
    ensures r.Ok? ==> |r.value| == |data|
    ensures r.Ok? ==> forall i | 0 <= i < |data| :: r.value[i].request == data[i].request
    ensures r.Ok? ==> forall i | 0 <= i < |data| && Truthy(data[i].response.value.file) ::
      r.value[i] == WithResponse(data[i].request,
        Response(Some(RewriteFile(root, ops, data[i].response.value.file.value)), data[i].response.value.others))
    ensures r.Ok? ==> forall i | 0 <= i < |data| && !Truthy(data[i].response.value.file) ::
      r.value[i] == WithData(data[i].request, data)
  {
    MapEntries(data, data, root, ops)
  }

  /** The list handed to Stubby, read back as a stub list: an entry that went
      through the `{request, data}` branch has no `response` any more. */
  function AsStub(n: NormalizedStub): (s: Stub)
    ensures s.Stub? && s.request == n.request
    ensures HasResponse(s) <==> n.WithResponse?
  {
    match n
    case WithResponse(request, response) => Stub(request, Some(response))
    case WithData(request, _) => Stub(request, None)
  }

  function AsStubs(ns: seq<NormalizedStub>): (ss: seq<Stub>)
    ensures |ss| == |ns|
    ensures forall i | 0 <= i < |ns| :: ss[i] == AsStub(ns[i])
  {
    seq(|ns|, i requires 0 <= i < |ns| => AsStub(ns[i]))
  }

  /** The rewrite is not idempotent on its own output: as soon as one entry
      lacks a truthy `file`, normalizing the result a second time throws the
      missing-`response` TypeError, since that entry lost its `response`. */
  lemma RenormalizingThrowsAfterDataBranch(data: seq<Stub>, root: string, ops: PathOps, k: nat)
    requires k < |data|
    requires forall i | 0 <= i < |data| :: HasResponse(data[i])
    requires HasResponse(data[k]) && !Truthy(data[k].response.value.file)
    ensures NormalizeResponseFilePaths(data, root, ops).Ok?
    ensures NormalizeResponseFilePaths(AsStubs(NormalizeResponseFilePaths(data, root, ops).value), root, ops)
      == Err(ResponseUndefined)
  {
    var again := AsStubs(NormalizeResponseFilePaths(data, root, ops).value);
    assert !HasResponse(again[k]);
    var twice := NormalizeResponseFilePaths(again, root, ops);
    var j :| FirstFailure(again, j) && twice.error == EntryError(again[j]);
    assert again[j].Stub?;
  }

  /** The file rewrite is stable on one entry: it has a truthy `file`, and
      rewriting the rewritten path again gives the same non-empty path. */
  predicate StableFileEntry(root: string, ops: PathOps, s: Stub)
  {
    HasResponse(s) && Truthy(s.response.value.file) &&
    var once := RewriteFile(root, ops, s.response.value.file.value);
    once != "" && RewriteFile(root, ops, once) == once
  }

  /** When every entry has a file whose rewrite is already stable, such as an
      absolute POSIX path that `normalize` and `resolve` leave alone,
      normalizing twice is the same as normalizing once. */
  lemma {:induction false} RenormalizingStableFilesIsIdempotent(data: seq<Stub>, root: string, ops: PathOps)
    requires forall i | 0 <= i < |data| :: StableFileEntry(root, ops, data[i])
    ensures NormalizeResponseFilePaths(data, root, ops).Ok?
    ensures var once := NormalizeResponseFilePaths(data, root, ops).value;
      NormalizeResponseFilePaths(AsStubs(once), root, ops) == Ok(once)
  {
    var once := NormalizeResponseFilePaths(data, root, ops).value;
    var again := AsStubs(once);
    forall i | 0 <= i < |data|
      ensures HasResponse(again[i]) && Truthy(again[i].response.value.file)
      ensures again[i].response.value.file.value == RewriteFile(root, ops, data[i].response.value.file.value)
    {
      assert StableFileEntry(root, ops, data[i]);
    }
    var twice := NormalizeResponseFilePaths(again, root, ops);
    assert twice.Ok?;
    forall i | 0 <= i < |data|
      ensures twice.value[i] == once[i]
    {
      assert StableFileEntry(root, ops, data[i]);
    }
    assert twice.value == once;
  }
}

/** The libraries and the caller that reader.go talks to, reduced to what
    the emitter can observe of them: the identifier rules of
    go-whosonfirst-uri, the backend of go-reader with the handles it opens,
    the query filters of go-whosonfirst-iterate, the constructors used at
    configuration time, and the caller's callback. */
module Collaborators {
  import opened Wrappers

  type byte = bv8

  /** An error value returned by a library; only its message is observable. */
  datatype Cause = Cause(msg: string)

  /** The identifier-scoped arguments uri.ParseURI returns beside the id. */
  datatype UriArgs = UriArgs(isAlternate: bool, alternate: string)

  datatype ParseResult = ParseOk(id: int, args: UriArgs) | ParseErr(cause: Cause)

  datatype PathResult = PathOk(relPath: string) | PathErr(cause: Cause)

  /** uri.ParseURI and uri.Id2RelPath: both pure functions of their inputs. */
  datatype UriRules = UriRules(
    parse: string -> ParseResult,
    id2RelPath: (int, UriArgs) -> PathResult)

  /** What reader.Read answers for a relative path: a handle over `content`,
      or an error. `seekFault` is the error that handle's Seek reports, if it
      reports one. */
  datatype ReadResult = ReadOk(content: seq<byte>, seekFault: Option<Cause>) | ReadErr(cause: Cause)

  /** A go-reader backend, as the emitter uses it: one Read per path. */
  datatype Backend = Backend(read: string -> ReadResult)

  datatype Verdict = Keep | Drop | Failed(cause: Cause)

  /** The outcome of filters.Apply on some content: how many bytes it read
      from the handle, and whether the record is kept, dropped or the
      evaluation failed. */
  datatype Evaluation = Evaluation(consumed: nat, verdict: Verdict)

  /** A query filter chain (includes, excludes): one evaluation per content. */
  datatype Filters = Filters(apply: seq<byte> -> Evaluation)

  /** What url.Parse yields: the decoded query, each key with its values. */
  datatype UrlResult = UrlOk(query: map<string, seq<string>>) | UrlErr(cause: Cause)

  /** The three constructors NewReaderEmitter calls: url.Parse,
      reader.NewReader and filters.NewQueryFiltersFromURI (which may yield
      no filter chain at all, the nil interface). */
  datatype Factories = Factories(
    parseUrl: string -> UrlResult,
    newReader: string -> Result<Backend, Cause>,
    newQueryFilters: string -> Result<Option<Filters>, Cause>)

  /** url.Values.Get: the first value of `key`, or "" when there is none. */
  function QueryGet(query: map<string, seq<string>>, key: string): string
  {
    if key in query && query[key] != [] then query[key][0] else ""
  }

  /** One invocation of the caller's callback: the path it was given and
      the handle as the callback saw it. */
  datatype Call = Call(relPath: string, content: seq<byte>, pos: nat, closed: bool)

  /** One call the emitter makes on a collaborator. */
  datatype Event =
    | ParseUri(path: string)
    | DeriveRelPath(id: int, args: UriArgs)
    | ReadPath(relPath: string)
    | ApplyFilters
    | Rewind
    | Callback(call: Call)
    | Closed

  /** The environment the emitter runs in, as an observer sees it: every
      call made on a collaborator, in order, and every content handle ever
      opened. Each collaborator below records its own calls here. */
  class World {
    ghost var events: seq<Event>
    ghost var handles: seq<Handle>

    constructor ()
      ensures events == [] && handles == []
    {
      events := [];
      handles := [];
    }
  }

  /** uri.ParseURI. */
  method ParseURI(world: World, rules: UriRules, path: string) returns (r: ParseResult)
    modifies world
    ensures r == rules.parse(path)
    ensures world.events == old(world.events) + [ParseUri(path)]
    ensures world.handles == old(world.handles)
  {
    r := rules.parse(path);
    world.events := world.events + [ParseUri(path)];
  }

  /** uri.Id2RelPath. */
  method Id2RelPath(world: World, rules: UriRules, id: int, args: UriArgs) returns (r: PathResult)
    modifies world
    ensures r == rules.id2RelPath(id, args)
    ensures world.events == old(world.events) + [DeriveRelPath(id, args)]
    ensures world.handles == old(world.handles)
  {
    r := rules.id2RelPath(id, args);
    world.events := world.events + [DeriveRelPath(id, args)];
  }

  /** What can be seen of a content handle at one moment. */
  datatype HandleState = HandleState(content: seq<byte>, pos: nat, closed: bool)

  function Min(a: nat, b: nat): nat
  {
    if a <= b then a else b
  }

  /** The open, seekable handle a backend returns (io.ReadSeekCloser).
      Seeking and filtering are only defined on an open handle: a caller that
      did either after Close would fail to verify. Closing is allowed at any
      time and counted, so that a second Close is visible. Every handle is
      registered in its world when it is created, and records its seeks and
      closes there. */
  class Handle {
    const world: World
    const content: seq<byte>
    const seekFault: Option<Cause>
    var pos: nat
    var closed: bool
    var closeCount: nat

    function State(): HandleState
      reads this
    {
      HandleState(content, pos, closed)
    }

    /** A backend hands out handles positioned at the start and open. */
    constructor (world: World, content: seq<byte>, seekFault: Option<Cause>)
      modifies world
      ensures this.world == world && this.content == content && this.seekFault == seekFault
      ensures pos == 0 && !closed && closeCount == 0
      ensures world.handles == old(world.handles) + [this]
      ensures world.events == old(world.events)
    {
      this.world := world;
      this.content := content;
      this.seekFault := seekFault;
      pos := 0;
      closed := false;
      closeCount := 0;
      new;
      world.handles := world.handles + [this];
    }

    /** Seek(0, io.SeekStart), the only seek the emitter makes: rewinds to
        the start, or reports the handle's seek error and stays where it is. */
    method Seek() returns (err: Option<Cause>)
      requires !closed
      modifies this, world
      ensures err == seekFault
      ensures pos == (if seekFault.None? then 0 else old(pos))
      ensures closed == old(closed) && closeCount == old(closeCount)
      ensures world.events == old(world.events) + [Rewind]
      ensures world.handles == old(world.handles)
    {
      err := seekFault;
      if seekFault.None? {
        pos := 0;
      }
      world.events := world.events + [Rewind];
    }

    method Close()
      modifies this, world
      ensures closed && closeCount == old(closeCount) + 1 && pos == old(pos)
      ensures world.events == old(world.events) + [Closed]
      ensures world.handles == old(world.handles)
    {
      closed := true;
      closeCount := closeCount + 1;
      world.events := world.events + [Closed];
    }
  }

  /** reader.Read: a fresh open handle at offset 0, or the backend's error. */
  method Read(world: World, backend: Backend, relPath: string) returns (fh: Handle?, err: Option<Cause>)
    modifies world
    ensures world.events == old(world.events) + [ReadPath(relPath)]
    ensures backend.read(relPath).ReadErr? ==>
      && fh == null && err == Some(backend.read(relPath).cause)
      && world.handles == old(world.handles)
    ensures backend.read(relPath).ReadOk? ==>
      && err.None? && fh != null && fresh(fh)
      && fh.world == world
      && fh.content == backend.read(relPath).content
      && fh.seekFault == backend.read(relPath).seekFault
      && fh.pos == 0 && !fh.closed && fh.closeCount == 0
      && world.handles == old(world.handles) + [fh]
  {
    var answer := backend.read(relPath);
    if answer.ReadErr? {
      fh, err := null, Some(answer.cause);
    } else {
      fh := new Handle(world, answer.content, answer.seekFault);
      err := None;
    }
    world.events := world.events + [ReadPath(relPath)];
  }

  /** filters.Apply: evaluates the chain on the handle's content, reading
      from it, and answers (keep, error) as the Go function does. */
  method Apply(filters: Filters, fh: Handle) returns (ok: bool, err: Option<Cause>)
    requires !fh.closed
    modifies fh, fh.world
    ensures fh.pos == Min(old(fh.pos) + filters.apply(fh.content).consumed, |fh.content|)
    ensures !fh.closed && fh.closeCount == old(fh.closeCount)
    ensures err.Some? <==> filters.apply(fh.content).verdict.Failed?
    ensures err.Some? ==> err.value == filters.apply(fh.content).verdict.cause
    ensures err.None? ==> (ok <==> filters.apply(fh.content).verdict.Keep?)
    ensures fh.world.events == old(fh.world.events) + [ApplyFilters]
    ensures fh.world.handles == old(fh.world.handles)
  {
    var evaluation := filters.apply(fh.content);
    fh.pos := Min(fh.pos + evaluation.consumed, |fh.content|);
    fh.world.events := fh.world.events + [ApplyFilters];
    match evaluation.verdict
    case Keep => ok, err := true, None;
    case Drop => ok, err := false, None;
    case Failed(cause) => ok, err := false, Some(cause);
  }

  /** The caller's callback (emitter.EmitterCallbackFunc): it returns a
      fixed answer, records in the handle's world what it saw, and keeps the
      handles it was lent. */
  class Recorder {
    const reply: Option<Cause>
    ghost var lent: seq<Handle>

    constructor (reply: Option<Cause>)
      ensures this.reply == reply && lent == []
    {
      this.reply := reply;
      lent := [];
    }

    method Invoke(relPath: string, fh: Handle) returns (err: Option<Cause>)
      modifies this, fh.world
      ensures fh.world.events == old(fh.world.events) + [Callback(Call(relPath, fh.content, fh.pos, fh.closed))]
      ensures fh.world.handles == old(fh.world.handles)
      ensures lent == old(lent) + [fh]
      ensures err == reply
    {
      fh.world.events := fh.world.events + [Callback(Call(relPath, fh.content, fh.pos, fh.closed))];
      lent := lent + [fh];
      err := reply;
    }
  }
}

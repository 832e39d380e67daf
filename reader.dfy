/** reader.go: an emitter that resolves each identifier to a relative path,
    opens it through a go-reader backend, optionally filters its content,
    and lends the handle to the caller's callback. */
module Reader {
  import opened Wrappers
  import opened Collaborators
  import opened Semantics

  class ReaderEmitter {
    const reader: Backend
    const filters: Option<Filters>

    constructor (reader: Backend, filters: Option<Filters>)
      ensures this.reader == reader && this.filters == filters
    {
      this.reader := reader;
      this.filters := filters;
    }

    /** The walk of one identifier in `world`. The calls it makes on the
        collaborators, which they record in `world` themselves, are exactly
        those of the reference definition Walk, and it returns Walk's error.
        At most one handle is opened, exactly when parsing, derivation and
        the read succeed; that handle, `fh` (ghost, for the proof), is the
        only one lent to the callback, and ends closed exactly once. */
    method WalkURI(world: World, rules: UriRules, cb: Recorder, path: string)
      returns (err: Option<WalkError>, ghost fh: Handle?)
      modifies world, cb
      ensures err == Walk(rules, reader, filters, path, cb.reply).err
      ensures world.events == old(world.events) + Walk(rules, reader, filters, path, cb.reply).events
      ensures fh != null <==> Opens(rules, reader, path)
      ensures world.handles == old(world.handles) + (if fh != null then [fh] else [])
      ensures fh != null ==> fresh(fh) && fh.closed && fh.closeCount == 1
      ensures cb.lent == old(cb.lent) + (if fh != null && ReachesCallback(rules, reader, filters, path) then [fh] else [])
    {
      fh := null;
      var parsed := ParseURI(world, rules, path);
      if parsed.ParseErr? {
        ParseFailureStopsWalk(rules, reader, filters, path, cb.reply);
        return Some(ParseFailed(path, parsed.cause)), fh;
      }

      var derived := Id2RelPath(world, rules, parsed.id, parsed.args);
      if derived.PathErr? {
        RelPathFailureStopsWalk(rules, reader, filters, path, cb.reply);
        return Some(RelPathFailed(path, derived.cause.msg)), fh;
      }
      var relPath := derived.relPath;

      var h, readErr := Read(world, reader, relPath);
      if readErr.Some? {
        ReadFailureStopsWalk(rules, reader, filters, path, cb.reply);
        return Some(ReadFailed(relPath, path, readErr.value.msg)), fh;
      }
      fh := h;

      // The deferred Close runs once the walk's answer is fixed.
      err := WalkOpen(h, relPath, cb);
      h.Close();
      OpenedWalk(rules, reader, filters, path, cb.reply);
    }

    /** The walk while the handle is open (reader.go:78-98): filters when
        configured, a rewind when they keep the record, then the callback
        with the relative path. The calls recorded in the handle's world and
        the error are those of WhileOpen; the handle is left open, at the
        offset LeftAt gives, and is lent to the callback exactly when
        WhileOpen calls back. */
    method WalkOpen(fh: Handle, relPath: string, cb: Recorder) returns (err: Option<WalkError>)
      requires !fh.closed
      modifies fh, fh.world, cb
      ensures err == WhileOpen(filters, relPath, old(fh.State()), fh.seekFault, cb.reply).err
      ensures fh.world.events
           == old(fh.world.events) + WhileOpen(filters, relPath, old(fh.State()), fh.seekFault, cb.reply).events
      ensures fh.world.handles == old(fh.world.handles)
      ensures fh.pos == LeftAt(filters, old(fh.State()), fh.seekFault)
      ensures !fh.closed && fh.closeCount == old(fh.closeCount)
      ensures cb.lent == old(cb.lent) + (if CallsBack(filters, fh.content, fh.seekFault) then [fh] else [])
    {
      if filters.Some? {
        var ok, filterErr := Apply(filters.value, fh);
        if filterErr.Some? {
          return Some(Passed(filterErr.value));
        }
        if !ok {
          return None;
        }
        var seekErr := fh.Seek();
        if seekErr.Some? {
          return Some(Passed(seekErr.value));
        }
      }
      var reply := cb.Invoke(relPath, fh);
      err := Returned(reply);
    }
  }

  /** NewReaderEmitter: parses the configuration URI, builds the backend
      from its `reader` parameter, then the filters from the whole URI, and
      fails at the first of these that fails. */
  method NewReaderEmitter(factories: Factories, uri: string)
    returns (r: Result<ReaderEmitter, ConfigError>)
    ensures r.Failure? <==> Configure(factories, uri).Failure?
    ensures r.Failure? ==> r.error == Configure(factories, uri).error
    ensures r.Success? ==>
      && fresh(r.value)
      && r.value.reader == Configure(factories, uri).value.reader
      && r.value.filters == Configure(factories, uri).value.filters
  {
    var parsed := factories.parseUrl(uri);
    if parsed.UrlErr? {
      return Failure(UrlParseFailed(parsed.cause));
    }
    var readerUri := QueryGet(parsed.query, "reader");
    var reader := factories.newReader(readerUri);
    if reader.Failure? {
      return Failure(ReaderFailed(reader.error));
    }
    var filters := factories.newQueryFilters(uri);
    if filters.Failure? {
      return Failure(FiltersFailed(filters.error));
    }
    var idx := new ReaderEmitter(reader.value, filters.value);
    return Success(idx);
  }
}

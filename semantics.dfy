/** The reference definition of what reader.go does: building an emitter
    from its configuration URI, and walking one identifier, as the sequence
    of calls it makes on its collaborators and the error it returns. The
    imperative emitter in module Reader is proved to behave exactly so; the
    lemmas here state what that behaviour guarantees. */
module Semantics {
  import opened Wrappers
  import opened Collaborators

  // ---------------------------------------------------------------------
  // Construction (reader.go:24-54)
  // ---------------------------------------------------------------------

  /** Why NewReaderEmitter failed; each wraps its library's error. */
  datatype ConfigError =
    | UrlParseFailed(cause: Cause)
    | ReaderFailed(cause: Cause)
    | FiltersFailed(cause: Cause)

  /** What a ReaderEmitter holds. */
  datatype Config = Config(reader: Backend, filters: Option<Filters>)

  /** The value of the `reader` query parameter, when the URI parses. */
  function ReaderUri(factories: Factories, uri: string): string
    requires factories.parseUrl(uri).UrlOk?
  {
    QueryGet(factories.parseUrl(uri).query, "reader")
  }

  function Configure(factories: Factories, uri: string): Result<Config, ConfigError>
  {
    var parsed := factories.parseUrl(uri);
    if parsed.UrlErr? then Failure(UrlParseFailed(parsed.cause))
    else
      var reader := factories.newReader(ReaderUri(factories, uri));
      if reader.Failure? then Failure(ReaderFailed(reader.error))
      else
        var filters := factories.newQueryFilters(uri);
        if filters.Failure? then Failure(FiltersFailed(filters.error))
        else Success(Config(reader.value, filters.value))
  }

  /** The three failure points are checked in order and the first one
      decides the error; construction succeeds only when none fails, and
      then holds exactly the reader and filters that were built. */
  lemma ConfigureFailsAtFirstFailingStep(factories: Factories, uri: string)
    ensures
      var r := Configure(factories, uri);
      && (factories.parseUrl(uri).UrlErr? ==>
            r == Failure(UrlParseFailed(factories.parseUrl(uri).cause)))
      && (factories.parseUrl(uri).UrlOk? && factories.newReader(ReaderUri(factories, uri)).Failure? ==>
            r == Failure(ReaderFailed(factories.newReader(ReaderUri(factories, uri)).error)))
      && (factories.parseUrl(uri).UrlOk? && factories.newReader(ReaderUri(factories, uri)).Success?
          && factories.newQueryFilters(uri).Failure? ==>
            r == Failure(FiltersFailed(factories.newQueryFilters(uri).error)))
      && (r.Success? <==>
            factories.parseUrl(uri).UrlOk? && factories.newReader(ReaderUri(factories, uri)).Success?
            && factories.newQueryFilters(uri).Success?)
      && (r.Success? ==>
            r.value.reader == factories.newReader(ReaderUri(factories, uri)).value
            && r.value.filters == factories.newQueryFilters(uri).value)
  {
  }

  // ---------------------------------------------------------------------
  // Walking one identifier (reader.go:56-99)
  // ---------------------------------------------------------------------

  /** The error WalkURI returns. Parse errors wrap their cause (%w); the
      relative-path and read errors keep only its message (%v); filter, seek
      and callback errors are returned unchanged. */
  datatype WalkError =
    | ParseFailed(path: string, cause: Cause)
    | RelPathFailed(path: string, detail: string)
    | ReadFailed(relPath: string, path: string, detail: string)
    | Passed(cause: Cause)

  /** What one walk did: the error returned, if any, and the calls made. */
  datatype Run = Run(err: Option<WalkError>, events: seq<Event>)

  /** How many times a trace closes the handle. */
  function Closes(t: seq<Event>): nat
  {
    multiset(t)[Closed]
  }

  /** The callback invocations of a trace, in order. */
  function Callbacks(t: seq<Event>): seq<Call>
  {
    if t == [] then []
    else Callbacks(t[..|t| - 1]) + (if t[|t| - 1].Callback? then [t[|t| - 1].call] else [])
  }

  lemma {:induction false} CallbacksConcat(a: seq<Event>, b: seq<Event>)
    ensures Callbacks(a + b) == Callbacks(a) + Callbacks(b)
    decreases |b|
  {
    if b == [] {
      assert a + b == a;
    } else {
      assert (a + b)[..|a + b| - 1] == a + b[..|b| - 1];
      CallbacksConcat(a, b[..|b| - 1]);
    }
  }

  /** A trace without a callback step records no callback invocation. */
  lemma {:induction false} NoCallbacks(t: seq<Event>)
    requires forall e <- t :: !e.Callback?
    ensures Callbacks(t) == []
  {
    if t != [] {
      NoCallbacks(t[..|t| - 1]);
    }
  }

  /** Applying the error the callback returned. */
  function Returned(reply: Option<Cause>): (r: Option<WalkError>)
  {
    if reply.None? then None else Some(Passed(reply.value))
  }

  /** The walk of reader.go:78-98, on a handle that is open: filters (when
      configured), rewind on keep, and the callback with the handle. The
      deferred Close is not part of it. */
  function WhileOpen(filters: Option<Filters>, relPath: string, fh: HandleState,
                     seekFault: Option<Cause>, reply: Option<Cause>): Run
  {
    if filters.None? then
      Run(Returned(reply), [Callback(Call(relPath, fh.content, fh.pos, fh.closed))])
    else
      var evaluation := filters.value.apply(fh.content);
      var consumed := fh.(pos := Min(fh.pos + evaluation.consumed, |fh.content|));
      match evaluation.verdict
      case Failed(cause) => Run(Some(Passed(cause)), [ApplyFilters])
      case Drop => Run(None, [ApplyFilters])
      case Keep =>
        if seekFault.Some? then Run(Some(Passed(seekFault.value)), [ApplyFilters, Rewind])
        else
          var rewound := consumed.(pos := 0);
          Run(Returned(reply), [ApplyFilters, Rewind,
                                Callback(Call(relPath, rewound.content, rewound.pos, rewound.closed))])
  }

  /** Whether the open part reaches the callback: there are no filters,
      or they keep the content and the rewind succeeds. */
  predicate CallsBack(filters: Option<Filters>, content: seq<byte>, seekFault: Option<Cause>)
  {
    filters.None? || (filters.value.apply(content).verdict.Keep? && seekFault.None?)
  }

  /** Where the open part leaves the handle: untouched without filters,
      after what the filters read when they fail, drop, or the rewind fails,
      and at offset 0 after a successful rewind. */
  function LeftAt(filters: Option<Filters>, fh: HandleState, seekFault: Option<Cause>): nat
  {
    if filters.None? then fh.pos
    else if CallsBack(filters, fh.content, seekFault) then 0
    else Min(fh.pos + filters.value.apply(fh.content).consumed, |fh.content|)
  }

  /** Parsing, path derivation and reading all succeed: a handle is opened. */
  predicate Opens(rules: UriRules, reader: Backend, path: string)
  {
    && rules.parse(path).ParseOk?
    && rules.id2RelPath(rules.parse(path).id, rules.parse(path).args).PathOk?
    && reader.read(rules.id2RelPath(rules.parse(path).id, rules.parse(path).args).relPath).ReadOk?
  }

  /** The relative path of an identifier that parses and resolves. */
  function RelPathOf(rules: UriRules, path: string): string
    requires rules.parse(path).ParseOk?
    requires rules.id2RelPath(rules.parse(path).id, rules.parse(path).args).PathOk?
  {
    rules.id2RelPath(rules.parse(path).id, rules.parse(path).args).relPath
  }

  /** ReaderEmitter.WalkURI for identifier `path`, with a callback that
      answers `reply`. */
  function Walk(rules: UriRules, reader: Backend, filters: Option<Filters>,
                path: string, reply: Option<Cause>): Run
  {
    var parsed := rules.parse(path);
    if parsed.ParseErr? then Run(Some(ParseFailed(path, parsed.cause)), [ParseUri(path)])
    else
      var head := [ParseUri(path), DeriveRelPath(parsed.id, parsed.args)];
      var derived := rules.id2RelPath(parsed.id, parsed.args);
      if derived.PathErr? then Run(Some(RelPathFailed(path, derived.cause.msg)), head)
      else
        var relPath := derived.relPath;
        var answer := reader.read(relPath);
        if answer.ReadErr? then
          Run(Some(ReadFailed(relPath, path, answer.cause.msg)), head + [ReadPath(relPath)])
        else
          var body := WhileOpen(filters, relPath, HandleState(answer.content, 0, false),
                                answer.seekFault, reply);
          Run(body.err, head + [ReadPath(relPath)] + body.events + [Closed])
  }

  // ---------------------------------------------------------------------
  // What a walk guarantees
  // ---------------------------------------------------------------------

  /** The calls made up to a successful read. */
  function OpeningCalls(rules: UriRules, path: string): seq<Event>
    requires rules.parse(path).ParseOk?
    requires rules.id2RelPath(rules.parse(path).id, rules.parse(path).args).PathOk?
  {
    [ParseUri(path), DeriveRelPath(rules.parse(path).id, rules.parse(path).args),
     ReadPath(RelPathOf(rules, path))]
  }

  /** The part of a walk that runs while its handle is open. */
  function OpenPart(rules: UriRules, reader: Backend, filters: Option<Filters>,
                    path: string, reply: Option<Cause>): Run
    requires Opens(rules, reader, path)
  {
    var answer := reader.read(RelPathOf(rules, path));
    WhileOpen(filters, RelPathOf(rules, path), HandleState(answer.content, 0, false),
              answer.seekFault, reply)
  }

  /** Every step before the callback succeeds: the handle opens and, when
      filters are configured, they keep the record and the rewind works. */
  predicate ReachesCallback(rules: UriRules, reader: Backend, filters: Option<Filters>, path: string)
  {
    && Opens(rules, reader, path)
    && CallsBack(filters, reader.read(RelPathOf(rules, path)).content,
                 reader.read(RelPathOf(rules, path)).seekFault)
  }

  /** A malformed identifier: the parse error is returned, carrying the
      identifier and the cause, and nothing is called after the parse. */
  lemma ParseFailureStopsWalk(rules: UriRules, reader: Backend, filters: Option<Filters>,
                              path: string, reply: Option<Cause>)
    requires rules.parse(path).ParseErr?
    ensures Walk(rules, reader, filters, path, reply)
         == Run(Some(ParseFailed(path, rules.parse(path).cause)), [ParseUri(path)])
  {
  }

  /** A relative path that cannot be derived: its error is returned and
      nothing is called after the derivation: no read, no callback, no close. */
  lemma RelPathFailureStopsWalk(rules: UriRules, reader: Backend, filters: Option<Filters>,
                                path: string, reply: Option<Cause>)
    requires rules.parse(path).ParseOk?
    requires rules.id2RelPath(rules.parse(path).id, rules.parse(path).args).PathErr?
    ensures
      var parsed := rules.parse(path);
      Walk(rules, reader, filters, path, reply)
        == Run(Some(RelPathFailed(path, rules.id2RelPath(parsed.id, parsed.args).cause.msg)),
               [ParseUri(path), DeriveRelPath(parsed.id, parsed.args)])
  {
  }

  /** A failed read: the error carries the relative path and the
      identifier; no handle exists, so nothing is closed, and neither the
      filters nor the callback are called. */
  lemma ReadFailureStopsWalk(rules: UriRules, reader: Backend, filters: Option<Filters>,
                             path: string, reply: Option<Cause>)
    requires rules.parse(path).ParseOk?
    requires rules.id2RelPath(rules.parse(path).id, rules.parse(path).args).PathOk?
    requires reader.read(RelPathOf(rules, path)).ReadErr?
    ensures Walk(rules, reader, filters, path, reply)
         == Run(Some(ReadFailed(RelPathOf(rules, path), path, reader.read(RelPathOf(rules, path)).cause.msg)),
                OpeningCalls(rules, path))
  {
  }

  /** A walk that opens its handle is the opening calls, then the open
      part, then the deferred Close, and answers what the open part answers. */
  lemma OpenedWalk(rules: UriRules, reader: Backend, filters: Option<Filters>,
                   path: string, reply: Option<Cause>)
    requires Opens(rules, reader, path)
    ensures
      var body := OpenPart(rules, reader, filters, path, reply);
      Walk(rules, reader, filters, path, reply)
        == Run(body.err, OpeningCalls(rules, path) + body.events + [Closed])
  {
  }

  /** A failing filter evaluation is returned unchanged; the handle is
      closed right after it, without a rewind and without the callback. */
  lemma FilterErrorReturnedUnchanged(rules: UriRules, reader: Backend, filters: Option<Filters>,
                                     path: string, reply: Option<Cause>)
    requires Opens(rules, reader, path) && filters.Some?
    requires filters.value.apply(reader.read(RelPathOf(rules, path)).content).verdict.Failed?
    ensures Walk(rules, reader, filters, path, reply)
         == Run(Some(Passed(filters.value.apply(reader.read(RelPathOf(rules, path)).content).verdict.cause)),
                OpeningCalls(rules, path) + [ApplyFilters, Closed])
  {
  }

  /** When the filters drop the record the walk returns no error; the
      handle is closed right after the filters, without a rewind and without
      the callback. */
  lemma DropIsSilent(rules: UriRules, reader: Backend, filters: Option<Filters>,
                     path: string, reply: Option<Cause>)
    requires Opens(rules, reader, path) && filters.Some?
    requires filters.value.apply(reader.read(RelPathOf(rules, path)).content).verdict.Drop?
    ensures Walk(rules, reader, filters, path, reply)
         == Run(None, OpeningCalls(rules, path) + [ApplyFilters, Closed])
  {
  }

  /** When the filters keep the record but the rewind fails, the seek
      error is returned unchanged and the handle closed, without the
      callback. */
  lemma RewindFailureReturnedUnchanged(rules: UriRules, reader: Backend, filters: Option<Filters>,
                                       path: string, reply: Option<Cause>)
    requires Opens(rules, reader, path) && filters.Some?
    requires filters.value.apply(reader.read(RelPathOf(rules, path)).content).verdict.Keep?
    requires reader.read(RelPathOf(rules, path)).seekFault.Some?
    ensures Walk(rules, reader, filters, path, reply)
         == Run(Some(Passed(reader.read(RelPathOf(rules, path)).seekFault.value)),
                OpeningCalls(rules, path) + [ApplyFilters, Rewind, Closed])
  {
  }

  /** When the filters keep the record and the rewind succeeds, the calls
      are: parse, derive, read, filters, rewind, callback, close. The
      callback comes right after the rewind, so it sees offset 0 however
      much the filters read, and before the close, so it sees an open
      handle; its answer is the walk's answer. */
  lemma KeepRewindsBeforeCallback(rules: UriRules, reader: Backend, filters: Option<Filters>,
                                  path: string, reply: Option<Cause>)
    requires Opens(rules, reader, path) && filters.Some?
    requires filters.value.apply(reader.read(RelPathOf(rules, path)).content).verdict.Keep?
    requires reader.read(RelPathOf(rules, path)).seekFault.None?
    ensures
      var call := Call(RelPathOf(rules, path), reader.read(RelPathOf(rules, path)).content, 0, false);
      Walk(rules, reader, filters, path, reply)
        == Run(Returned(reply), OpeningCalls(rules, path) + [ApplyFilters, Rewind, Callback(call), Closed])
  {
  }

  /** Without filters neither the filters nor the seek are applied: the
      calls are parse, derive, read, callback, close; the callback gets the
      relative path and the handle as the backend returned it, and its
      answer is the walk's answer. */
  lemma NoFiltersCallsBackOnce(rules: UriRules, reader: Backend,
                               path: string, reply: Option<Cause>)
    requires Opens(rules, reader, path)
    ensures
      var call := Call(RelPathOf(rules, path), reader.read(RelPathOf(rules, path)).content, 0, false);
      Walk(rules, reader, None, path, reply)
        == Run(Returned(reply), OpeningCalls(rules, path) + [Callback(call), Closed])
  {
  }

  /** The three opening calls, an open part and the closing call record
      the open part's callbacks and nothing else. */
  lemma {:induction false} OpenedCallbacks(head: seq<Event>, body: seq<Event>)
    requires |head| == 3 && head[0].ParseUri? && head[1].DeriveRelPath? && head[2].ReadPath?
    ensures Callbacks(head + body + [Closed]) == Callbacks(body)
  {
    assert head == [head[0], head[1], head[2]];
    NoCallbacks(head);
    CallbacksConcat(head + body, [Closed]);
    CallbacksConcat(head, body);
  }

  /** The three opening calls, an open part and the closing call close once
      more than the open part, and the close is the last call. */
  lemma {:induction false} OpenedCloses(head: seq<Event>, body: seq<Event>)
    requires |head| == 3 && head[0].ParseUri? && head[1].DeriveRelPath? && head[2].ReadPath?
    ensures Closes(head + body + [Closed]) == Closes(body) + 1
    ensures (head + body + [Closed])[|head + body + [Closed]| - 1] == Closed
  {
    assert head == [head[0], head[1], head[2]];
    assert multiset(head + body + [Closed]) == multiset(head) + multiset(body) + multiset{Closed};
  }

  /** The open part never closes the handle. */
  lemma WhileOpenStaysOpen(filters: Option<Filters>, relPath: string, fh: HandleState,
                           seekFault: Option<Cause>, reply: Option<Cause>)
    ensures Closes(WhileOpen(filters, relPath, fh, seekFault, reply).events) == 0
  {
  }

  /** The open part calls the callback at most once: exactly when there are
      no filters, or they keep the record and the rewind succeeds; the
      callback then sees the handle as it was given, or rewound to offset 0
      after filtering, and its answer is the open part's answer. */
  lemma {:induction false} WhileOpenCallsBackLast(filters: Option<Filters>, relPath: string, fh: HandleState,
                                                  seekFault: Option<Cause>, reply: Option<Cause>)
    ensures
      var r := WhileOpen(filters, relPath, fh, seekFault, reply);
      var calls := CallsBack(filters, fh.content, seekFault);
      && Callbacks(r.events)
           == (if calls then [Call(relPath, fh.content, if filters.None? then fh.pos else 0, fh.closed)] else [])
      && (calls ==> r.err == Returned(reply))
  {
    var r := WhileOpen(filters, relPath, fh, seekFault, reply);
    if filters.None? {
      assert r.events == [] + r.events;
      CallbacksConcat([], r.events);
    } else {
      var verdict := filters.value.apply(fh.content).verdict;
      if verdict.Keep? && seekFault.None? {
        assert r.events == [ApplyFilters, Rewind] + [r.events[2]];
        NoCallbacks([ApplyFilters, Rewind]);
        CallbacksConcat([ApplyFilters, Rewind], [r.events[2]]);
        assert [r.events[2]] == [] + [r.events[2]];
        CallbacksConcat([], [r.events[2]]);
      } else {
        NoCallbacks(r.events);
      }
    }
  }

  /** Once the read succeeds the handle is closed exactly once, whichever
      way the walk returns, and the close is the last call of the walk,
      after the callback. When the read does not succeed nothing is closed. */
  lemma {:induction false} ClosedExactlyOnce(rules: UriRules, reader: Backend, filters: Option<Filters>,
                                             path: string, reply: Option<Cause>)
    ensures
      var r := Walk(rules, reader, filters, path, reply);
      && Closes(r.events) == (if Opens(rules, reader, path) then 1 else 0)
      && (Opens(rules, reader, path) ==> r.events[|r.events| - 1] == Closed)
  {
    if !Opens(rules, reader, path) {
      if rules.parse(path).ParseErr? {
        ParseFailureStopsWalk(rules, reader, filters, path, reply);
      } else if rules.id2RelPath(rules.parse(path).id, rules.parse(path).args).PathErr? {
        RelPathFailureStopsWalk(rules, reader, filters, path, reply);
      } else {
        ReadFailureStopsWalk(rules, reader, filters, path, reply);
      }
    } else {
      var answer := reader.read(RelPathOf(rules, path));
      WhileOpenStaysOpen(filters, RelPathOf(rules, path), HandleState(answer.content, 0, false),
                         answer.seekFault, reply);
      OpenedWalk(rules, reader, filters, path, reply);
      OpenedCloses(OpeningCalls(rules, path), OpenPart(rules, reader, filters, path, reply).events);
    }
  }

  /** The callback is called at most once. It is called exactly when every
      step before it succeeds, so never on an error path, and then with the
      relative path and the whole content of the handle, at offset 0 and
      open, and the walk answers what the callback answered. */
  lemma {:induction false} CallbackOnlyOnSuccessPath(rules: UriRules, reader: Backend, filters: Option<Filters>,
                                                     path: string, reply: Option<Cause>)
    ensures
      var r := Walk(rules, reader, filters, path, reply);
      Callbacks(r.events)
        == if ReachesCallback(rules, reader, filters, path)
           then [Call(RelPathOf(rules, path), reader.read(RelPathOf(rules, path)).content, 0, false)]
           else []
    ensures ReachesCallback(rules, reader, filters, path) ==>
      Walk(rules, reader, filters, path, reply).err == Returned(reply)
  {
    if !Opens(rules, reader, path) {
      if rules.parse(path).ParseErr? {
        ParseFailureStopsWalk(rules, reader, filters, path, reply);
      } else if rules.id2RelPath(rules.parse(path).id, rules.parse(path).args).PathErr? {
        RelPathFailureStopsWalk(rules, reader, filters, path, reply);
        NoCallbacks(Walk(rules, reader, filters, path, reply).events);
      } else {
        ReadFailureStopsWalk(rules, reader, filters, path, reply);
        NoCallbacks(OpeningCalls(rules, path));
      }
    } else {
      var answer := reader.read(RelPathOf(rules, path));
      WhileOpenCallsBackLast(filters, RelPathOf(rules, path), HandleState(answer.content, 0, false),
                             answer.seekFault, reply);
      OpenedWalk(rules, reader, filters, path, reply);
      OpenedCallbacks(OpeningCalls(rules, path), OpenPart(rules, reader, filters, path, reply).events);
    }
  }

  /** The rewind makes filtering invisible to the callback: when the
      filters keep the record and the rewind succeeds, the callback is
      called exactly as it is without filters, with the same path, the same
      bytes and offset 0, whatever the filters consumed, and the walk
      answers the same. */
  lemma {:induction false} RewindIsTransparent(rules: UriRules, reader: Backend, filters: Filters,
                                               path: string, reply: Option<Cause>)
    requires Opens(rules, reader, path)
    requires filters.apply(reader.read(RelPathOf(rules, path)).content).verdict.Keep?
    requires reader.read(RelPathOf(rules, path)).seekFault.None?
    ensures Callbacks(Walk(rules, reader, Some(filters), path, reply).events)
         == Callbacks(Walk(rules, reader, None, path, reply).events)
    ensures Walk(rules, reader, Some(filters), path, reply).err
         == Walk(rules, reader, None, path, reply).err
  {
    CallbackOnlyOnSuccessPath(rules, reader, Some(filters), path, reply);
    CallbackOnlyOnSuccessPath(rules, reader, None, path, reply);
  }

  /** The two configurations of reader_test.go, for one identifier that
      resolves and reads and a callback that succeeds: without filters the
      callback runs once and the walk succeeds; with an include filter the
      record does not match, the callback never runs and the walk still
      succeeds. */
  lemma {:induction false} TestedCallbackCounts(rules: UriRules, reader: Backend, filters: Filters, path: string)
    requires Opens(rules, reader, path)
    requires filters.apply(reader.read(RelPathOf(rules, path)).content).verdict.Drop?
    ensures Walk(rules, reader, None, path, None).err.None?
    ensures |Callbacks(Walk(rules, reader, None, path, None).events)| == 1
    ensures Walk(rules, reader, Some(filters), path, None).err.None?
    ensures |Callbacks(Walk(rules, reader, Some(filters), path, None).events)| == 0
  {
    CallbackOnlyOnSuccessPath(rules, reader, None, path, None);
    CallbackOnlyOnSuccessPath(rules, reader, Some(filters), path, None);
    DropIsSilent(rules, reader, Some(filters), path, None);
  }
}

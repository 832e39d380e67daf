# go-whosonfirst-iterate-reader, modelled in Dafny

This project models the `reader://` emitter of go-whosonfirst-iterate-reader
(`reader.go`). The emitter is configured from a URI that names a go-reader
backend (its `reader` query parameter) and optional query filters. For each
Who's On First identifier it is given, it does the following in order:

- parses the identifier and derives its relative path;
- opens that path through the backend;
- applies the filters when there are any, and rewinds the handle to
  offset 0 when they keep the record;
- hands the relative path and the open handle to the caller's callback;
- closes the handle (Go `defer`) once the callback has returned.

The project has four modules, one file each:

- `wrappers.dfy` (`Wrappers`) holds `Option` and `Result`.
- `collaborators.dfy` (`Collaborators`) holds what the emitter calls.
  - The identifier rules, the backend, the filter chain and the constructors
    used at configuration time are pure oracles: datatypes with total function
    fields.
  - A `World` object stands for what an observer of the emitter can see.
    It holds the ordered log of every call made on a collaborator and the
    list of every content handle ever opened. Only the collaborators' methods
    write to it, and to the handles' and callback's fields; reader.dfy never
    assigns any of these fields. Dafny does not enforce this (the fields
    are public), and `WalkURI`'s guarantees about the calls it makes rest on
    it.
  - `ParseURI` and `Id2RelPath` call the identifier rules and log the call.
  - `Read` logs the read and, on success, creates a `Handle` registered in
    the world.
  - The content handle is a `Handle` class. It has an offset, a closed flag
    and a count of `Close` calls. Filtering and seeking require an open
    handle, so using a handle after closing it does not verify. `Apply`,
    `Seek` and `Close` log themselves.
  - The caller's callback is a `Recorder` class. It returns a fixed answer,
    logs the path and the handle's state as it saw them, and keeps the
    handles it was lent.
- `semantics.dfy` (`Semantics`) is the reference definition.
  - `Configure` gives the outcome of building an emitter.
  - `Walk` gives the outcome of walking one identifier: the error returned
    and the exact sequence of calls made on the collaborators. That sequence
    is parse, derive, read, filters, rewind, callback and close, each present
    or not.
  - The lemmas about these two functions state what the emitter guarantees.
- `reader.dfy` (`Reader`) is the emitter itself, written imperatively.
  - It has `NewReaderEmitter` and the `ReaderEmitter` class.
  - Its `WalkURI` method calls the collaborators step by step. It is
    proved to return what `Walk` returns, and the world's log grows by
    exactly the calls `Walk` lists.
  - It opens a handle only when the read succeeds, and opens exactly one.
    That handle is the only one lent to the callback, and it ends closed
    exactly once.

## Model

| member | source | states |
|---|---|---|
| Reader.NewReaderEmitter | reader.go:24-54 | fails exactly when `Configure` fails, with the same error; otherwise returns a fresh emitter holding exactly the reader and filters built |
| Reader.ReaderEmitter.constructor | reader.go:48-51 | the emitter holds the given reader and filters |
| Reader.ReaderEmitter.WalkURI | reader.go:56-99 | returns the error of `Walk`, and the log the collaborators keep grows by exactly the calls of `Walk`; one handle is opened iff parse, derive and read succeed, and no other; it is lent to the callback iff `Walk` calls back, and ends closed with exactly one `Close` |
| Reader.ReaderEmitter.WalkOpen | reader.go:78-98 | on an open handle: the error and the logged calls are those of `WhileOpen` for the handle's state; the handle stays open, ends at the offset `LeftAt` gives, and is lent to the callback iff there are no filters or they keep and the rewind succeeds |
| Collaborators.ParseURI | reader.go:58 | returns what the identifier rules answer and logs the parse |
| Collaborators.Id2RelPath | reader.go:64 | returns what the path rules answer and logs the derivation |
| Collaborators.Handle.constructor | reader.go:70 | a new handle is open, at offset 0, never closed, and registered in its world |
| Collaborators.Handle.Seek | reader.go:90-94 | `Seek(0, 0)` on an open handle: moves to offset 0, or reports the handle's seek error and stays put; logs the rewind |
| Collaborators.Handle.Close | reader.go:76 | marks the handle closed, counts one more close and logs it |
| Collaborators.Read | reader.go:70-74 | logs the read; a fresh open handle at offset 0 over the backend's content, registered in the world, or no handle and the backend's error |
| Collaborators.Apply | reader.go:80-88 | error iff the evaluation fails (with its cause); otherwise keep iff the verdict is keep; the offset advances by what the filters read; logs the evaluation |
| Collaborators.Recorder.Invoke | reader.go:97-98 | logs the path and the handle's content, offset and closed flag as seen at the call, keeps the lent handle, and returns the callback's answer |
| Semantics.ConfigureFailsAtFirstFailingStep | reader.go:26-53 | URL parse, then reader, then filters: the first that fails decides the error; success iff none fails, holding exactly the reader and filters built |
| Semantics.ParseFailureStopsWalk | reader.go:58-62 | a parse error is returned with the identifier and its cause; the parse is the only call |
| Semantics.RelPathFailureStopsWalk | reader.go:64-68 | a derivation error is returned with the identifier and the cause's message; no read, no callback, no close |
| Semantics.ReadFailureStopsWalk | reader.go:70-74 | a read error carries the relative path, the identifier and the cause's message; nothing is closed, no filters, no callback |
| Semantics.OpenedWalk | reader.go:70-99 | once the read succeeds, the walk is the opening calls, the open part, then one close; its error is the open part's |
| Semantics.FilterErrorReturnedUnchanged | reader.go:80-84 | a failing filter evaluation's error is returned unchanged; the next call is the close; no rewind, no callback |
| Semantics.DropIsSilent | reader.go:86-88 | a dropped record yields no error; the next call is the close; no rewind, no callback |
| Semantics.RewindFailureReturnedUnchanged | reader.go:90-94 | when the rewind fails its error is returned unchanged; the next call is the close; no callback |
| Semantics.KeepRewindsBeforeCallback | reader.go:78-98 | a kept record is rewound, then given to the callback at offset 0 on an open handle, then closed; the walk returns the callback's answer |
| Semantics.NoFiltersCallsBackOnce | reader.go:78-98 | without filters there is no filter or seek call; one callback with the relative path and the handle as read, then the close; the callback's answer is returned |
| Semantics.WhileOpenStaysOpen | reader.go:78-98 | the part of the walk that runs while the handle is open never closes it |
| Semantics.WhileOpenCallsBackLast | reader.go:78-98 | that part calls back once exactly when there are no filters or they keep and the rewind succeeds, with offset 0 after filtering, and then answers what the callback answered; otherwise it never calls back |
| Semantics.OpenedCallbacks | reader.go:70-99 | the opening calls and the close add no callback to the open part's |
| Semantics.OpenedCloses | reader.go:76 | the opening calls and the deferred close add exactly one close, and it is the last call |
| Semantics.ClosedExactlyOnce | reader.go:70-99 | the handle is closed exactly once when the read succeeds, as the last call whichever way the walk returns; never closed otherwise |
| Semantics.CallbackOnlyOnSuccessPath | reader.go:56-99 | the callback runs at most once; it runs iff every step before it succeeds, with the relative path and the full content at offset 0 on an open handle; the walk then returns its answer |
| Semantics.RewindIsTransparent | reader.go:90-98 | with filters that keep and a working rewind, the callback sees exactly what it sees without filters, and the walk answers the same |
| Semantics.TestedCallbackCounts | reader_test.go:30-58 | for an identifier that resolves and reads, and a callback that succeeds: one callback without filters, none with a filter that drops; no error either way |

## Left out

- `init` and `emitter.RegisterEmitter` (reader.go:13-16): scheme registration in a global table is Go start-up plumbing, with nothing to prove.
- go-whosonfirst-uri's syntax and its `Id2RelPath` layout, go-reader's backends, and the filter expressions are all taken as arbitrary functions. Their own rules are library code and are not part of this model.
- `net/url`: only the query map and `Values.Get`'s "first value, or empty" rule are modelled.
- The `context.Context` values, including `AssignPathContext` (reader.go:97): the relative path it attaches is what the model passes to the callback explicitly.
- Error messages: each wrapped error is a constructor that keeps the data the Go format string puts in. The parse error keeps its cause (`%w`). The derivation and read errors keep only the cause's message (`%v`). The text of the format strings is not modelled.
- The iterator around the emitter is not part of this model. It walks many identifiers, counts what it has seen, tracks whether it is running and decides whether to stop on an error. That includes cmd/count/main.go and the reader_test.go fixtures.
- Handle ownership after the callback: `WalkURI` lends the handle to the callback and closes it itself once the callback returns (reader.go:76, 98), so the callback cannot use it open after it returns. The model states this, and nothing about what a caller does with the handle afterwards.
- Filter and seek errors are returned unwrapped (reader.go:83, 93), with no context added. The model's `Passed` carries the cause unchanged.
- The error returned by the deferred `Close` is discarded by Go's `defer`, so `Close` has no error in the model.
- Collaborators.Recorder.Invoke: the callback only observes the handle; a callback that reads, seeks or closes the handle itself is not modelled.
- Collaborators.ParseURI, Collaborators.Id2RelPath: these library calls are pure. They are logged so that the log shows the whole walk in order; calling them again would change nothing else.
- Collaborators.Apply: the filters' reads are reduced to how many bytes they consume; where the offset ends is all the emitter depends on.

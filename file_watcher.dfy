/** The debounce state machine of the watcher's event handler. Times are parameters: `now` is
    the clock reading taken when an event arrives, `triggerTime` the second reading taken when
    the callback fires. The callback itself is not modelled beyond the argument it receives;
    whether it raises makes no difference, since the pending set is cleared either way. */
module FileWatcher {
  import DocumentProcessor

  /** A watchdog event: its `src_path` and `is_directory`. */
  datatype Event = Event(srcPath: DocumentProcessor.Path, isDirectory: bool)

  /** The handler's mutable state, and the arguments the callback has received so far. */
  datatype HandlerState = HandlerState(pending: set<string>, lastEventTime: real, calls: seq<DocumentProcessor.Path>)

  /** The handler's configuration. */
  datatype Config = Config(directory: DocumentProcessor.Path, fileTypes: set<string>, debounceSeconds: real)

  function Initial(): (s: HandlerState)
    ensures s.pending == {} && s.lastEventTime == 0.0 && s.calls == []
  {
    HandlerState({}, 0.0, [])
  }

  /** An event is acted on when it concerns a file whose suffix is watched. */
  predicate Relevant(c: Config, e: Event)
  {
    !e.isDirectory && DocumentProcessor.Suffix(DocumentProcessor.Name(e.srcPath)) in c.fileTypes
  }

  /** `_trigger_callback` at clock reading `t`. */
  function Trigger(c: Config, s: HandlerState, t: real): HandlerState
  {
    if s.pending == {} then s
    else HandlerState({}, t, s.calls + [c.directory])
  }

  /** `on_any_event`: record the path, then trigger once the debounce interval has passed. */
  function OnEvent(c: Config, s: HandlerState, e: Event, now: real, triggerTime: real): HandlerState
  {
    if !Relevant(c, e) then s
    else
      var s' := s.(pending := s.pending + {DocumentProcessor.PathString(e.srcPath)});
      if now - s.lastEventTime >= c.debounceSeconds then Trigger(c, s', triggerTime) else s'
  }

  /** Directory events and unwatched suffixes change nothing. */
  lemma IrrelevantUnchanged(c: Config, s: HandlerState, e: Event, now: real, triggerTime: real)
    requires !Relevant(c, e)
    ensures OnEvent(c, s, e, now, triggerTime) == s
  {
  }

  /** A relevant event fires the callback exactly when the debounce interval has elapsed; when it
      does not fire, its path is now pending and the time of the last trigger is kept. */
  lemma RelevantEvent(c: Config, s: HandlerState, e: Event, now: real, triggerTime: real)
    requires Relevant(c, e)
    ensures var s' := OnEvent(c, s, e, now, triggerTime);
      && (now - s.lastEventTime >= c.debounceSeconds ==>
            s' == HandlerState({}, triggerTime, s.calls + [c.directory]))
      && (now - s.lastEventTime < c.debounceSeconds ==>
            && s'.pending == s.pending + {DocumentProcessor.PathString(e.srcPath)}
            && s'.lastEventTime == s.lastEventTime && s'.calls == s.calls)
  {
  }

  /** The callback runs during an event if and only if the event is relevant and the debounce
      interval has elapsed. */
  lemma FiresIff(c: Config, s: HandlerState, e: Event, now: real, triggerTime: real)
    ensures |OnEvent(c, s, e, now, triggerTime).calls| == |s.calls| + 1 <==>
      Relevant(c, e) && now - s.lastEventTime >= c.debounceSeconds
    ensures |OnEvent(c, s, e, now, triggerTime).calls| == |s.calls| + 1 ||
      OnEvent(c, s, e, now, triggerTime).calls == s.calls
  {
    if Relevant(c, e) {
      var p := DocumentProcessor.PathString(e.srcPath);
      assert p in s.pending + {p};
    }
  }

  /** The last trigger time starts at zero, so the first relevant event fires once the clock
      reads at least the debounce interval. */
  lemma FirstEventFires(c: Config, e: Event, now: real, triggerTime: real)
    requires Relevant(c, e) && now >= c.debounceSeconds
    ensures OnEvent(c, Initial(), e, now, triggerTime) == HandlerState({}, triggerTime, [c.directory])
  {
  }

  /** Triggering with nothing pending does nothing; otherwise it clears the pending set and
      records the trigger time. */
  lemma TriggerEffect(c: Config, s: HandlerState, t: real)
    ensures s.pending == {} ==> Trigger(c, s, t) == s
    ensures s.pending != {} ==> Trigger(c, s, t).pending == {} && Trigger(c, s, t).lastEventTime == t
  {
  }

  /** Every callback receives the watched directory, never the changed paths. */
  predicate CallsOnDirectory(c: Config, s: HandlerState)
  {
    forall i :: 0 <= i < |s.calls| ==> s.calls[i] == c.directory
  }

  lemma EventKeepsCallsOnDirectory(c: Config, s: HandlerState, e: Event, now: real, triggerTime: real)
    requires CallsOnDirectory(c, s)
    ensures CallsOnDirectory(c, OnEvent(c, s, e, now, triggerTime))
  {
  }

  /** After an event, either the callback did not run and the pending set only grew, or the
      pending set is empty. */
  lemma PendingAfterEvent(c: Config, s: HandlerState, e: Event, now: real, triggerTime: real)
    ensures var s' := OnEvent(c, s, e, now, triggerTime);
      s'.pending == {} || (s.pending <= s'.pending && s'.calls == s.calls)
  {
  }

  /** `IndexFileHandler`: the fields the handler updates. */
  class IndexFileHandler {
    const config: Config
    var pendingChanges: set<string>
    var lastEventTime: real
    /** The arguments passed to `on_change_callback`, in order. */
    var calls: seq<DocumentProcessor.Path>

    function State(): HandlerState
      reads this
    {
      HandlerState(pendingChanges, lastEventTime, calls)
    }

    constructor(directory: DocumentProcessor.Path, fileTypes: set<string>, debounceSeconds: real)
      ensures config == Config(directory, fileTypes, debounceSeconds)
      ensures State() == Initial()
    {
      config := Config(directory, fileTypes, debounceSeconds);
      pendingChanges := {};
      lastEventTime := 0.0;
      calls := [];
    }

    method OnAnyEvent(e: Event, now: real, triggerTime: real)
      modifies this
      ensures State() == OnEvent(config, old(State()), e, now, triggerTime)
    {
      if e.isDirectory {
        return;
      }
      if DocumentProcessor.Suffix(DocumentProcessor.Name(e.srcPath)) !in config.fileTypes {
        return;
      }
      pendingChanges := pendingChanges + {DocumentProcessor.PathString(e.srcPath)};
      if now - lastEventTime >= config.debounceSeconds {
        TriggerCallback(triggerTime);
      }
    }

    method TriggerCallback(t: real)
      modifies this
      ensures State() == Trigger(config, old(State()), t)
    {
      if pendingChanges == {} {
        return;
      }
      lastEventTime := t;
      calls := calls + [config.directory];
      pendingChanges := {};
    }
  }
}

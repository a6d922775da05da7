/** The recorder's three event emitters (`onRecordingStateChanged`, `onTranscriptionResult`,
    `onError`), merged into one ordered log of what their subscribers receive. */
module Events {
  import opened RecorderErrors

  /** One delivery: `Error(e)` reaches the subscribers of `onError` as `ErrorMessage(e)`. */
  datatype Event =
    | StateChanged(recording: bool)
    | TranscriptionResult(text: string)
    | Error(error: RecorderError)

  /** The state subscribers last heard of: the value of the last state change in the log,
      `false` (idle) before any. */
  function LastReported(log: seq<Event>): bool
  {
    if log == [] then false
    else if log[|log| - 1].StateChanged? then log[|log| - 1].recording
    else LastReported(log[..|log| - 1])
  }

  /** Every state change in the log reports the opposite of the state heard of before it:
      the recorder never reports the state it is already in. */
  predicate Alternates(log: seq<Event>)
  {
    log == [] ||
    (var init, e := log[..|log| - 1], log[|log| - 1];
     Alternates(init) && (e.StateChanged? ==> e.recording != LastReported(init)))
  }

  /** Appending one event: only a state change alters what was last heard, and the log keeps
      alternating exactly when that change is the opposite of it. */
  lemma AppendEvent(log: seq<Event>, e: Event)
    ensures LastReported(log + [e]) == if e.StateChanged? then e.recording else LastReported(log)
    ensures Alternates(log + [e]) <==> Alternates(log) && (e.StateChanged? ==> e.recording != LastReported(log))
  {
    assert (log + [e])[..|log|] == log;
  }

  /** The values carried by the state-change events of a log, in order. The state last
      reported is the last of them, and idle when there is none. */
  function StateChanges(log: seq<Event>): (s: seq<bool>)
    ensures LastReported(log) <==> |s| > 0 && s[|s| - 1]
  {
    if log == [] then []
    else
      var e := log[|log| - 1];
      StateChanges(log[..|log| - 1]) + (if e.StateChanged? then [e.recording] else [])
  }

  /** The reference form of the same property: the state changes read `true`, `false`,
      `true`, … from the start. */
  predicate Alternating(s: seq<bool>)
  {
    forall i :: 0 <= i < |s| ==> s[i] == (i % 2 == 0)
  }

  /** The recursive form and the reference form agree, and in an alternating log the state
      last heard of is `true` exactly when an odd number of state changes were fired. */
  lemma {:induction false} AlternatesIffAlternating(log: seq<Event>)
    ensures Alternates(log) <==> Alternating(StateChanges(log))
    ensures Alternates(log) ==> (LastReported(log) <==> |StateChanges(log)| % 2 == 1)
  {
    if log != [] {
      var init, e := log[..|log| - 1], log[|log| - 1];
      AlternatesIffAlternating(init);
      var s0, s := StateChanges(init), StateChanges(log);
      assert s[..|s0|] == s0;
      if Alternating(s) {
        assert Alternating(s0) by {
          forall i | 0 <= i < |s0| ensures s0[i] == (i % 2 == 0) {
            assert s0[i] == s[i];
          }
        }
        if e.StateChanged? {
          assert s[|s0|] == e.recording;
        }
      }
    }
  }
}

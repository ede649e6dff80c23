/**
 * `StreamingWriter`: builds timeline-update envelopes, keeps a per-phase
 * history of progress messages and forwards every envelope to an optional
 * callback. The callback itself is outside the model: the writer records
 * the envelopes it hands over, and whatever the callback raises is
 * swallowed, so it cannot affect the writer.
 */
module Streaming {
  import opened Wrappers
  import opened Json

  datatype Status = InProgress | Completed | Failed
  {
    function Name(): string
    {
      match this
      case InProgress => "in_progress"
      case Completed => "completed"
      case Failed => "error"
    }
  }

  /** A timeline update: `progress_message` and `details` are present only for some statuses. */
  datatype TimelineUpdate = TimelineUpdate(
    phase: string,
    status: Status,
    progressMessage: Option<Json>,
    details: Option<Json>)

  /** `data.get("message", "")`. */
  function MessageOf(data: seq<(string, Json)>): Json
  {
    Get(data, "message").GetOr(JStr(""))
  }

  predicate KnownUpdateType(updateType: string)
  {
    updateType == "progress" || updateType == "completion" || updateType == "error"
  }

  /** The envelope `send_update` builds, or None for an unknown update type. */
  function Envelope(phase: string, updateType: string, data: seq<(string, Json)>): (u: Option<TimelineUpdate>)
    ensures u.Some? <==> KnownUpdateType(updateType)
    ensures u.Some? ==> u.value.phase == phase
    ensures updateType == "progress" ==>
      u.value.status == InProgress && u.value.progressMessage == Some(MessageOf(data)) && u.value.details.None?
    ensures updateType == "completion" ==>
      u.value.status == Completed && u.value.progressMessage.None? && u.value.details == Some(JObj(data))
    ensures updateType == "error" ==>
      u.value.status == Failed && u.value.progressMessage == Some(MessageOf(data)) &&
      u.value.details == Some(JObj([("error", u.value.progressMessage.value)]))
  {
    if updateType == "progress" then
      Some(TimelineUpdate(phase, InProgress, Some(MessageOf(data)), None))
    else if updateType == "completion" then
      Some(TimelineUpdate(phase, Completed, None, Some(JObj(data))))
    else if updateType == "error" then
      Some(TimelineUpdate(phase, Failed, Some(MessageOf(data)), Some(JObj([("error", MessageOf(data))]))))
    else None
  }

  /** `phase_history.setdefault(phase, []).append(message)`. */
  function Recorded(history: map<string, seq<Json>>, phase: string, message: Json): (h: map<string, seq<Json>>)
    ensures phase in h && h[phase] == (if phase in history then history[phase] else []) + [message]
    ensures forall p :: p != phase ==> (p in h <==> p in history) && (p in history ==> h[p] == history[p])
  {
    history[phase := (if phase in history then history[phase] else []) + [message]]
  }

  class StreamingWriter {
    /** Whether a callback was given. */
    const hasCallback: bool
    /** Progress messages per phase, in the order they were sent. */
    var phaseHistory: map<string, seq<Json>>
    /** The envelopes handed to the callback, in order. */
    var delivered: seq<TimelineUpdate>

    constructor(hasCallback: bool)
      ensures this.hasCallback == hasCallback
      ensures phaseHistory == map[] && delivered == []
    {
      this.hasCallback := hasCallback;
      phaseHistory := map[];
      delivered := [];
    }

    /**
     * `send_update(phase, update_type, data)`: an unknown update type
     * changes nothing; a progress update also records its message; with a
     * callback the envelope is handed over, and a failing callback changes
     * nothing further.
     */
    method SendUpdate(phase: string, updateType: string, data: seq<(string, Json)>)
      modifies this
      ensures !KnownUpdateType(updateType) ==> phaseHistory == old(phaseHistory) && delivered == old(delivered)
      ensures KnownUpdateType(updateType) ==>
        delivered == old(delivered) + (if hasCallback then [Envelope(phase, updateType, data).value] else [])
      ensures updateType == "progress" ==> phaseHistory == Recorded(old(phaseHistory), phase, MessageOf(data))
      ensures updateType != "progress" ==> phaseHistory == old(phaseHistory)
    {
      var update: TimelineUpdate;
      if updateType == "progress" {
        var message := MessageOf(data);
        update := TimelineUpdate(phase, InProgress, Some(message), None);
        var entries := if phase in phaseHistory then phaseHistory[phase] else [];
        phaseHistory := phaseHistory[phase := entries + [message]];
      } else if updateType == "completion" {
        update := TimelineUpdate(phase, Completed, None, Some(JObj(data)));
      } else if updateType == "error" {
        var message := MessageOf(data);
        update := TimelineUpdate(phase, Failed, Some(message), Some(JObj([("error", message)])));
      } else {
        return;
      }
      if hasCallback {
        delivered := delivered + [update];
      }
    }
  }

  /** `stream_progress(phase, message, writer)`. */
  method StreamProgress(phase: string, message: string, writer: StreamingWriter)
    modifies writer
    ensures writer.phaseHistory == Recorded(old(writer.phaseHistory), phase, JStr(message))
    ensures writer.delivered == old(writer.delivered) +
      (if writer.hasCallback then [TimelineUpdate(phase, InProgress, Some(JStr(message)), None)] else [])
  {
    writer.SendUpdate(phase, "progress", [("message", JStr(message))]);
  }

  /** `stream_completion(phase, details, writer)`. */
  method StreamCompletion(phase: string, details: seq<(string, Json)>, writer: StreamingWriter)
    modifies writer
    ensures writer.phaseHistory == old(writer.phaseHistory)
    ensures writer.delivered == old(writer.delivered) +
      (if writer.hasCallback then [TimelineUpdate(phase, Completed, None, Some(JObj(details)))] else [])
  {
    writer.SendUpdate(phase, "completion", details);
  }

  /** `stream_error(phase, error_message, writer)`. */
  method StreamError(phase: string, errorMessage: string, writer: StreamingWriter)
    modifies writer
    ensures writer.phaseHistory == old(writer.phaseHistory)
    ensures writer.delivered == old(writer.delivered) +
      (if writer.hasCallback
       then [TimelineUpdate(phase, Failed, Some(JStr(errorMessage)), Some(JObj([("error", JStr(errorMessage))])))]
       else [])
  {
    writer.SendUpdate(phase, "error", [("message", JStr(errorMessage))]);
  }

  /**
   * A fresh writer that receives one progress, one completion and one error
   * update for a phase keeps exactly the progress message in that phase's
   * history, and hands over the three envelopes in order when it has a
   * callback.
   */
  method ThreeUpdatesOnOnePhase(hasCallback: bool, phase: string, message: string, details: seq<(string, Json)>, error: string)
    returns (history: seq<Json>, handedOver: seq<Status>)
    ensures history == [JStr(message)]
    ensures handedOver == if hasCallback then [InProgress, Completed, Failed] else []
  {
    var writer := new StreamingWriter(hasCallback);
    StreamProgress(phase, message, writer);
    StreamCompletion(phase, details, writer);
    StreamError(phase, error, writer);
    history := writer.phaseHistory[phase];
    handedOver := seq(|writer.delivered|, i requires 0 <= i < |writer.delivered| reads writer => writer.delivered[i].status);
  }
}

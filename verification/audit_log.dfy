/** The audit sink (api_server/src/audit.rs): a bounded in-memory buffer beside an
    optional append-only file. */
module AuditLogging {
  import opened Wrappers

  datatype AuditEventKind =
    | AuthSuccess | AuthFailure | RunCreated | RunCompleted | RunFailed | RunCancelled
    | CaseCreated | CaseUpdated | ToolExecuted | ToolPolicyDenied | ServerStarted | ServerStopped

  /** `resource` is the number of the run the event is about. */
  datatype AuditEvent = AuditEvent(event: AuditEventKind, resource: nat)

  /** The newest `n` events of a history, oldest first. */
  function Newest<T>(history: seq<T>, n: nat): (recent: seq<T>)
  {
    if |history| <= n then history else history[|history| - n..]
  }

  /** Cutting twice is cutting once at the smaller bound. */
  lemma NewestOfNewest<T>(history: seq<T>, n: nat, m: nat)
    ensures Newest(Newest(history, n), m) == Newest(history, if n <= m then n else m)
  {
    if |history| > n && n > m {
      assert history[|history| - n..][n - m..] == history[|history| - m..];
    }
  }

  /** Appending keeps the buffer the newest suffix, whichever way the eviction test goes. */
  lemma NewestOfAppend<T>(history: seq<T>, e: T, n: nat)
    requires n >= 1
    ensures Newest(history + [e], n) ==
            (if |Newest(history, n)| >= n then Newest(history, n)[1..] else Newest(history, n)) + [e]
  {
    if |history| >= n {
      assert Newest(history, n) == history[|history| - n..];
      assert (history + [e])[|history| + 1 - n..] == history[|history| - n..][1..] + [e];
    }
  }

  class AuditLog {
    /** Lines of the audit file, when one is configured. */
    var file: Option<seq<AuditEvent>>
    var buffer: seq<AuditEvent>
    const maxBuffer: nat
    /** Every event ever emitted. */
    ghost var history: seq<AuditEvent>

    ghost predicate Valid()
      reads this
    {
      buffer == Newest(history, maxBuffer)
    }

    constructor (fileLines: Option<seq<AuditEvent>>, maxBuffer: Option<nat>)
      ensures Valid() && history == [] && file == fileLines
      ensures this.maxBuffer == if maxBuffer.Some? then maxBuffer.value else 10000
    {
      this.file := fileLines;
      this.buffer := [];
      this.maxBuffer := if maxBuffer.Some? then maxBuffer.value else 10000;
      this.history := [];
    }

    /** `written` says whether the file write succeeds; a failed write is ignored. With a
        capacity of 0 the eviction would remove from an empty vector, which panics. */
    method Emit(event: AuditEvent, written: bool)
      requires Valid() && maxBuffer >= 1
      modifies this
      ensures Valid() && history == old(history) + [event]
      ensures file == if old(file).Some? && written then Some(old(file).value + [event]) else old(file)
      ensures |buffer| <= maxBuffer && buffer[|buffer| - 1] == event
    {
      if file.Some? && written {
        file := Some(file.value + [event]);
      }
      NewestOfAppend(history, event, maxBuffer);
      if |buffer| >= maxBuffer {
        buffer := buffer[1..];
      }
      buffer := buffer + [event];
      history := history + [event];
    }

    /** The events shown to a caller are the newest of everything ever emitted. */
    method RecentEvents(limit: nat) returns (recent: seq<AuditEvent>)
      requires Valid()
      ensures recent == Newest(history, if maxBuffer <= limit then maxBuffer else limit)
    {
      NewestOfNewest(history, maxBuffer, limit);
      var start := if |buffer| > limit then |buffer| - limit else 0;
      recent := buffer[start..];
    }

    method EventCount() returns (count: nat)
      requires Valid()
      ensures count == if |history| <= maxBuffer then |history| else maxBuffer
    {
      count := |buffer|;
    }
  }
}

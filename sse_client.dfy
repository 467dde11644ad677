/**
 * The browser's event-stream client for the chat endpoint. Every read of
 * the response body is split into lines on its own, with no buffer
 * carried from one read to the next; each non-empty `data:` line that
 * parses as JSON becomes an event whose type is the nearest `event:` line
 * before the first occurrence of that same line in the read. The request
 * can be aborted, which ends the stream quietly. JSON parsing is a
 * parameter, as is the point at which an abort arrives.
 */
module SseClient {
  import opened Wrappers
  import opened Text

  datatype SseEvent<J> = SseEvent(event: string, data: J)

  predicate IsEventLine(line: string) {
    StartsWith(line, "event:")
  }

  predicate IsDataLine(line: string) {
    StartsWith(line, "data:")
  }

  /** The event name of an `event:` line, trimmed. */
  function EventName(line: string): string
    requires IsEventLine(line)
  {
    Trim(line[6..])
  }

  /** The payload of a `data:` line, trimmed. */
  function DataText(line: string): string
    requires IsDataLine(line)
  {
    Trim(line[5..])
  }

  /**
   * The type of the data line at `dataIndex`: the name on the nearest
   * `event:` line before it, or `unknown` when no line before it is one.
   */
  function NearestEventType(lines: seq<string>, dataIndex: int): string
    requires dataIndex <= |lines|
    decreases dataIndex
  {
    if dataIndex <= 0 then "unknown"
    else if IsEventLine(lines[dataIndex - 1]) then EventName(lines[dataIndex - 1])
    else NearestEventType(lines, dataIndex - 1)
  }

  /** With no `event:` line before the data line, its type is `unknown`. */
  lemma {:induction false} NoEventLineUnknown(lines: seq<string>, dataIndex: int)
    requires dataIndex <= |lines|
    requires forall i :: 0 <= i < dataIndex ==> !IsEventLine(lines[i])
    ensures NearestEventType(lines, dataIndex) == "unknown"
    decreases dataIndex
  {
    if dataIndex > 0 {
      NoEventLineUnknown(lines, dataIndex - 1);
    }
  }

  /** Otherwise its type is the name on the last `event:` line before it. */
  lemma {:induction false} NearestEventTypeIsNearest(lines: seq<string>, dataIndex: int, i: int)
    requires 0 <= i < dataIndex <= |lines| && IsEventLine(lines[i])
    requires forall k :: i < k < dataIndex ==> !IsEventLine(lines[k])
    ensures NearestEventType(lines, dataIndex) == EventName(lines[i])
    decreases dataIndex
  {
    if i < dataIndex - 1 {
      NearestEventTypeIsNearest(lines, dataIndex - 1, i);
    }
  }

  /** `getEventType`: the backward scan for the nearest `event:` line. */
  method GetEventType(lines: seq<string>, dataIndex: int) returns (r: string)
    requires 0 <= dataIndex <= |lines|
    ensures r == NearestEventType(lines, dataIndex)
  {
    var i := dataIndex - 1;
    while i >= 0
      invariant -1 <= i < dataIndex
      invariant NearestEventType(lines, dataIndex) == NearestEventType(lines, i + 1)
    {
      if IsEventLine(lines[i]) {
        return Trim(lines[i][6..]);
      }
      i := i - 1;
    }
    return "unknown";
  }

  /**
   * The event line `k` of a read produces: none for an `event:` line, a
   * data line with an empty payload, or a payload that does not parse;
   * otherwise the parsed payload, typed from where the line first occurs.
   */
  function LineEvents<J>(lines: seq<string>, k: nat, parse: string -> Option<J>): (es: seq<SseEvent<J>>)
    requires k < |lines|
    ensures |es| <= 1
  {
    var line := lines[k];
    if IsEventLine(line) then []
    else if IsDataLine(line) && DataText(line) != "" && parse(DataText(line)).Some? then
      [SseEvent(NearestEventType(lines, IndexOf(lines, line)), parse(DataText(line)).value)]
    else []
  }

  /** The events of the first `n` lines of one read. */
  function ReadEvents<J>(lines: seq<string>, n: nat, parse: string -> Option<J>): (es: seq<SseEvent<J>>)
    requires n <= |lines|
    ensures |es| <= n
  {
    if n == 0 then [] else ReadEvents(lines, n - 1, parse) + LineEvents(lines, n - 1, parse)
  }

  /** Every event of a read carries the parsed payload of one of its data lines. */
  lemma {:induction false} ReadEventsFromDataLines<J>(lines: seq<string>, n: nat, parse: string -> Option<J>, e: SseEvent<J>)
    requires n <= |lines| && e in ReadEvents(lines, n, parse)
    ensures exists k :: 0 <= k < n && IsDataLine(lines[k]) && parse(DataText(lines[k])) == Some(e.data)
  {
    if n > 0 {
      var before := ReadEvents(lines, n - 1, parse);
      assert ReadEvents(lines, n, parse) == before + LineEvents(lines, n - 1, parse);
      if e in before {
        ReadEventsFromDataLines(lines, n - 1, parse, e);
      } else {
        LineEventFromDataLine(lines, n - 1, parse, e);
      }
    }
  }

  /** The one event a line can yield carries that line's parsed payload. */
  lemma LineEventFromDataLine<J>(lines: seq<string>, k: nat, parse: string -> Option<J>, e: SseEvent<J>)
    requires k < |lines| && e in LineEvents(lines, k, parse)
    ensures IsDataLine(lines[k]) && parse(DataText(lines[k])) == Some(e.data)
  {
  }

  /** The events of a sequence of reads, each split into lines on its own. */
  function StreamEvents<J>(chunks: seq<string>, parse: string -> Option<J>): (es: seq<SseEvent<J>>)
  {
    if chunks == [] then []
    else
      var lines := Split(chunks[|chunks| - 1], '\n');
      StreamEvents(chunks[..|chunks| - 1], parse) + ReadEvents(lines, |lines|, parse)
  }

  /** The response of the chat endpoint: its status and the reads of its body, if it has one. */
  datatype ChatResponse = ChatResponse(ok: bool, status: int, body: Option<seq<string>>)

  datatype ChatOutcome = Finished | Aborted | Threw(message: string)

  class AbortController {
    var aborted: bool

    constructor ()
      ensures !aborted
    {
      aborted := false;
    }

    method Abort()
      modifies this
      ensures aborted
    {
      aborted := true;
    }
  }

  class SseClient {
    var abortController: Option<AbortController>

    constructor ()
      ensures abortController.None?
    {
      abortController := None;
    }

    /**
     * `startChat`: a fresh abort controller, then the reads of the body.
     * A response that is not OK, or has no body, throws. `abortAfter` is
     * the number of reads that complete before an abort arrives; the read
     * after them fails with an abort error, which ends the chat quietly
     * with the events delivered so far.
     */
    method StartChat<J>(response: ChatResponse, parse: string -> Option<J>, abortAfter: Option<nat>)
      returns (events: seq<SseEvent<J>>, outcome: ChatOutcome)
      modifies this
      ensures abortController.Some? && fresh(abortController.value)
      ensures !response.ok ==> outcome == Threw("HTTP error! status: " + IntToString(response.status)) && events == []
      ensures response.ok && response.body.None? ==> outcome == Threw("No response body") && events == []
      ensures response.ok && response.body.Some? ==>
        var chunks := response.body.value;
        var n := if abortAfter.Some? && abortAfter.value < |chunks| then abortAfter.value else |chunks|;
        && events == StreamEvents(chunks[..n], parse)
        && outcome == if n < |chunks| then Aborted else Finished
    {
      var controller := new AbortController();
      abortController := Some(controller);
      if !response.ok {
        return [], Threw("HTTP error! status: " + IntToString(response.status));
      }
      if response.body.None? {
        return [], Threw("No response body");
      }
      var aborted;
      events, aborted := ReadChunks(response.body.value, parse, abortAfter);
      outcome := if aborted then Aborted else Finished;
    }

    /** `abort()`: aborts the current request, if there is one. */
    method Abort()
      modifies if abortController.Some? then {abortController.value} else {}
      ensures abortController.Some? ==> abortController.value.aborted
    {
      if abortController.Some? {
        abortController.value.Abort();
      }
    }
  }

  /** The events of the first `r + 1` reads: those of the first `r`, then those of read `r`. */
  lemma StreamEventsStep<J>(chunks: seq<string>, r: nat, parse: string -> Option<J>)
    requires r < |chunks|
    ensures var lines := Split(chunks[r], '\n');
      StreamEvents(chunks[..r + 1], parse) == StreamEvents(chunks[..r], parse) + ReadEvents(lines, |lines|, parse)
  {
    assert chunks[..r + 1][..r] == chunks[..r];
  }

  /**
   * The loop over the reads of the body: reads complete until the abort
   * arrives after `abortAfter` of them, or the body ends.
   */
  method ReadChunks<J>(chunks: seq<string>, parse: string -> Option<J>, abortAfter: Option<nat>)
    returns (events: seq<SseEvent<J>>, aborted: bool)
    ensures var n := if abortAfter.Some? && abortAfter.value < |chunks| then abortAfter.value else |chunks|;
      events == StreamEvents(chunks[..n], parse) && (aborted <==> n < |chunks|)
  {
    ghost var n := if abortAfter.Some? && abortAfter.value < |chunks| then abortAfter.value else |chunks|;
    events, aborted := [], false;
    var r := 0;
    while r < |chunks|
      invariant r <= n && !aborted
      invariant events == StreamEvents(chunks[..r], parse)
    {
      if abortAfter.Some? && abortAfter.value == r {
        aborted := true;
        break;
      }
      var lines := Split(chunks[r], '\n');
      var readEvents := EventsOfLines(lines, parse);
      StreamEventsStep(chunks, r, parse);
      events := events + readEvents;
      r := r + 1;
    }
    assert r == n;
  }

  /** The loop over the lines of one read. */
  method EventsOfLines<J>(lines: seq<string>, parse: string -> Option<J>) returns (es: seq<SseEvent<J>>)
    ensures es == ReadEvents(lines, |lines|, parse)
  {
    es := [];
    var k := 0;
    while k < |lines|
      invariant 0 <= k <= |lines|
      invariant es == ReadEvents(lines, k, parse)
    {
      var more := EventsOfLine(lines, k, parse);
      es := es + more;
      k := k + 1;
    }
  }

  /** The body of that loop for line `k`. */
  method EventsOfLine<J>(lines: seq<string>, k: nat, parse: string -> Option<J>) returns (es: seq<SseEvent<J>>)
    requires k < |lines|
    ensures es == LineEvents(lines, k, parse)
  {
    var line := lines[k];
    if StartsWith(line, "event:") {
      return [];
    }
    es := [];
    if StartsWith(line, "data:") {
      var data := Trim(line[5..]);
      if data != "" {
        var parsed := parse(data);
        if parsed.Some? {
          var eventType := GetEventType(lines, IndexOf(lines, line));
          es := [SseEvent(eventType, parsed.value)];
        }
      }
    }
  }

  /**
   * The event type is looked up from the first occurrence of the data
   * line's text: a repeated data line yields the very event of its first
   * occurrence, whatever `event:` lines come between the two.
   */
  lemma RepeatedDataLineKeepsFirstType<J>(lines: seq<string>, i: nat, j: nat, parse: string -> Option<J>)
    requires i < j < |lines| && lines[i] == lines[j]
    ensures LineEvents(lines, j, parse) == LineEvents(lines, i, parse)
  {
  }

  /**
   * A read none of whose lines starts with `data:` yields no event. This is
   * what loses a line cut across two reads: each piece is split on its
   * own, and the piece after the cut does not start with `data:`.
   */
  lemma {:induction false} NoDataLineNoEvents<J>(lines: seq<string>, n: nat, parse: string -> Option<J>)
    requires n <= |lines|
    requires forall k :: 0 <= k < n ==> !IsDataLine(lines[k])
    ensures ReadEvents(lines, n, parse) == []
  {
    if n > 0 {
      NoDataLineNoEvents(lines, n - 1, parse);
    }
  }
}

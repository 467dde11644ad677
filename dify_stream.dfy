/**
 * The streaming call of the Dify client: the response body arrives in
 * chunks of text, is cut into lines at '\n' through a buffer that keeps
 * the unfinished last line, and every `data: ` line is parsed as JSON and
 * yielded as a `message` chunk until a `[DONE]` line ends the stream.
 * JSON parsing is a parameter: `parse` gives the value, or `None` where
 * `JSON.parse` throws.
 */
module DifyStream {
  import opened Wrappers
  import opened Text

  /** The error the client throws for a response that is not OK. */
  function ApiError(status: int, body: string): (message: string)
    ensures StartsWith(message, "Dify API error: ")
    ensures Includes(message, "Dify API error")
  {
    var message := "Dify API error: " + IntToString(status) + " - " + body;
    assert message[0..] == message && message[..14] == "Dify API error";
    assert StartsWith(message[0..], "Dify API error");
    message
  }

  const NoBodyError: string := "No response body received"

  /** A chunk the stream yields: always the `message` event with the parsed data. */
  datatype DifyChunk<J> = DifyChunk(event: string, data: J)

  /** The chunks yielded for a run of complete lines, and whether a `[DONE]` line ended it. */
  datatype Scan<J> = Scan(chunks: seq<DifyChunk<J>>, done: bool)

  /** The text after the `data: ` prefix of a line. */
  function Payload(line: string): string
    requires StartsWith(line, "data: ")
  {
    line[6..]
  }

  predicate IsDoneLine(line: string) {
    StartsWith(line, "data: ") && Trim(Payload(line)) == "[DONE]"
  }

  /**
   * The chunks a run of complete lines yields: a `data: ` line whose
   * payload trims to `[DONE]` stops the run; any other `data: ` line
   * yields its payload when it parses and is skipped when it does not;
   * every other line is skipped.
   */
  function ScanLines<J>(lines: seq<string>, parse: string -> Option<J>): (r: Scan<J>)
    ensures |r.chunks| <= |lines|
  {
    if lines == [] then Scan([], false) else Step(lines[0], ScanLines(lines[1..], parse), parse)
  }

  /** One line in front of the scan of the lines after it. */
  function Step<J>(line: string, rest: Scan<J>, parse: string -> Option<J>): (r: Scan<J>)
    ensures |r.chunks| <= |rest.chunks| + 1
  {
    if IsDoneLine(line) then Scan([], true)
    else if StartsWith(line, "data: ") && parse(Payload(line)).Some? then
      Scan([DifyChunk("message", parse(Payload(line)).value)] + rest.chunks, rest.done)
    else rest
  }

  /** The scan of two runs of lines from the scans of each: the second counts only when the first did not stop. */
  function Then<J>(first: Scan<J>, second: Scan<J>): Scan<J> {
    if first.done then first else Scan(first.chunks + second.chunks, second.done)
  }

  lemma StepThen<J>(line: string, first: Scan<J>, second: Scan<J>, parse: string -> Option<J>)
    ensures Step(line, Then(first, second), parse) == Then(Step(line, first, parse), second)
  {
    if !IsDoneLine(line) && StartsWith(line, "data: ") && parse(Payload(line)).Some? && !first.done {
      var c := DifyChunk("message", parse(Payload(line)).value);
      assert [c] + (first.chunks + second.chunks) == ([c] + first.chunks) + second.chunks;
    }
  }

  /** Scanning two runs of lines one after the other. */
  lemma {:induction false} ScanLinesAppend<J>(a: seq<string>, b: seq<string>, parse: string -> Option<J>)
    ensures ScanLines(a + b, parse) == Then(ScanLines(a, parse), ScanLines(b, parse))
  {
    if a == [] {
      assert a + b == b;
    } else {
      var ab := a + b;
      assert ab[0] == a[0] && ab[1..] == a[1..] + b;
      ScanLinesAppend(a[1..], b, parse);
      StepThen(a[0], ScanLines(a[1..], parse), ScanLines(b, parse), parse);
    }
  }

  /** The text of a chunked body. */
  function Concat(chunks: seq<string>): (text: string)
    ensures chunks == [] ==> text == ""
  {
    if chunks == [] then "" else Concat(chunks[..|chunks| - 1]) + chunks[|chunks| - 1]
  }

  lemma {:induction false} ConcatAppend(a: seq<string>, b: seq<string>)
    ensures Concat(a + b) == Concat(a) + Concat(b)
  {
    if b == [] {
      assert a + b == a;
    } else {
      ConcatAppend(a, b[..|b| - 1]);
      assert (a + b)[..|a + b| - 1] == a + b[..|b| - 1];
      assert (a + b)[|a + b| - 1] == b[|b| - 1];
    }
  }

  /** The complete lines of a text: every piece but the last, which no '\n' ends. */
  function CompleteLines(text: string): seq<string> {
    AllButLast(Split(text, '\n'))
  }

  /** Splitting the text after a further chunk: the complete lines so far, then those of the old last line and the chunk. */
  lemma SplitFurther(a: string, b: string)
    ensures var tail := Split(Last(Split(a, '\n')) + b, '\n');
      && CompleteLines(a + b) == CompleteLines(a) + AllButLast(tail)
      && Last(Split(a + b, '\n')) == Last(tail)
  {
    SplitAppend(a, b, '\n');
    AppendLast(CompleteLines(a), Split(Last(Split(a, '\n')) + b, '\n'));
  }

  lemma AppendLast<T>(a: seq<T>, t: seq<T>)
    requires |t| > 0
    ensures AllButLast(a + t) == a + AllButLast(t) && Last(a + t) == Last(t)
  {
    assert (a + t)[..|a + t| - 1] == a + t[..|t| - 1];
  }

  /** The complete lines of a text come first among the complete lines of any longer text. */
  lemma CompleteLinesExtend(a: string, b: string)
    ensures var la := CompleteLines(a); var lab := CompleteLines(a + b);
      |la| <= |lab| && lab[..|la|] == la
  {
    SplitFurther(a, b);
  }

  /**
   * What the stream yields for a body: the scan of its complete lines,
   * wherever the chunk boundaries fall. The unfinished last line is never
   * scanned.
   */
  function StreamChunks<J>(body: seq<string>, parse: string -> Option<J>): Scan<J> {
    ScanLines(CompleteLines(Concat(body)), parse)
  }

  /** A run of lines that stopped decides the scan of every run it begins. */
  lemma StoppedPrefix<J>(p: seq<string>, lines: seq<string>, parse: string -> Option<J>)
    requires |p| <= |lines| && lines[..|p|] == p && ScanLines(p, parse).done
    ensures ScanLines(lines, parse) == ScanLines(p, parse)
  {
    assert lines == p + lines[|p|..];
    ScanLinesAppend(p, lines[|p|..], parse);
  }

  /** A `[DONE]` line stops the scan: whatever follows it yields nothing. */
  lemma NothingAfterDone<J>(lines: seq<string>, k: nat, parse: string -> Option<J>)
    requires k < |lines| && IsDoneLine(lines[k])
    ensures ScanLines(lines, parse).done
    ensures ScanLines(lines, parse).chunks == ScanLines(lines[..k], parse).chunks
  {
    var p := lines[..k] + [lines[k]];
    ScanOneMore(lines[..k], lines[k], parse);
    ThenDone(ScanLines(lines[..k], parse), lines[k], parse);
    AroundIndex(lines, k);
    StoppedPrefix(p, lines, parse);
  }

  lemma ThenDone<J>(first: Scan<J>, line: string, parse: string -> Option<J>)
    requires IsDoneLine(line)
    ensures Then(first, Step(line, Scan([], false), parse)) == Scan(first.chunks, true)
  {
    assert first.chunks + [] == first.chunks;
  }

  /** A sequence is what comes before index `k`, the element there, and what comes after it. */
  lemma AroundIndex<T>(s: seq<T>, k: nat)
    requires k < |s|
    ensures |s[..k] + [s[k]]| <= |s| && s[..k + 1] == s[..k] + [s[k]]
    ensures s == (s[..k] + [s[k]]) + s[k + 1..]
  {
    assert s[..k + 1] == s[..k] + [s[k]];
  }

  lemma AppendAround<T>(a: seq<T>, c: seq<T>, j: nat)
    requires j < |c|
    ensures a + c == ((a + c[..j]) + [c[j]]) + c[j + 1..]
  {
    AroundIndex(c, j);
    assert a + c == a + ((c[..j] + [c[j]]) + c[j + 1..]);
  }

  lemma ExtendPrefix<T>(a: seq<T>, c: seq<T>, j: nat)
    requires j < |c|
    ensures a + c[..j + 1] == (a + c[..j]) + [c[j]]
  {
    assert c[..j + 1] == c[..j] + [c[j]];
  }

  /** A body with no '\n' at all yields nothing: its only line never completes. */
  lemma UnterminatedBodyYieldsNothing<J>(body: seq<string>, parse: string -> Option<J>)
    requires '\n' !in Concat(body)
    ensures StreamChunks(body, parse) == Scan([], false)
  {
    var text := Concat(body);
    assert IndexOf(text, '\n') == -1;
    assert Split(text, '\n') == [text];
  }

  /** The response of the chat-messages endpoint: its status, its error text, and its body as it is read. */
  datatype UpstreamResponse = UpstreamResponse(ok: bool, status: int, errorText: string, body: Option<seq<string>>)

  datatype StreamOutcome<J> = Thrown(message: string) | Streamed(chunks: seq<DifyChunk<J>>)

  /**
   * `chatCompletionStream`: a response that is not OK, or has no body,
   * throws; otherwise the chunks the body's complete lines yield, up to
   * a `[DONE]` line.
   */
  method ChatCompletionStream<J>(response: UpstreamResponse, parse: string -> Option<J>) returns (outcome: StreamOutcome<J>)
    ensures !response.ok ==> outcome == Thrown(ApiError(response.status, response.errorText))
    ensures response.ok && response.body.None? ==> outcome == Thrown(NoBodyError)
    ensures response.ok && response.body.Some? ==> outcome == Streamed(StreamChunks(response.body.value, parse).chunks)
  {
    if !response.ok {
      return Thrown(ApiError(response.status, response.errorText));
    }
    if response.body.None? {
      return Thrown(NoBodyError);
    }
    var body := response.body.value;
    var chunks := ReadBody(body, parse);
    return Streamed(chunks);
  }

  /** The buffer loop over the body's chunks. */
  method ReadBody<J>(body: seq<string>, parse: string -> Option<J>) returns (chunks: seq<DifyChunk<J>>)
    ensures chunks == StreamChunks(body, parse).chunks
  {
    ghost var all := CompleteLines(Concat(body));
    var buffer := "";
    chunks := [];
    var i := 0;
    ghost var consumed: seq<string> := [];
    while i < |body|
      invariant 0 <= i <= |body|
      invariant consumed == CompleteLines(Concat(body[..i])) && buffer == Last(Split(Concat(body[..i]), '\n'))
      invariant |consumed| <= |all| && all[..|consumed|] == consumed
      invariant chunks == ScanLines(consumed, parse).chunks && !ScanLines(consumed, parse).done
    {
      var complete := NextLines(body, i, consumed, buffer);
      buffer := Last(Split(buffer + body[i], '\n'));
      var stopped;
      chunks, stopped := ScanRun(consumed, complete, chunks, parse);
      if stopped {
        StoppedPrefix(consumed + complete, all, parse);
        return;
      }
      consumed := consumed + complete;
      i := i + 1;
    }
    assert body[..|body|] == body;
  }

  /**
   * The inner loop: scans the complete lines of one step after the lines
   * scanned before, stopping at a `[DONE]` line.
   */
  method ScanRun<J>(ghost prior: seq<string>, complete: seq<string>, chunks: seq<DifyChunk<J>>, parse: string -> Option<J>)
    returns (out: seq<DifyChunk<J>>, stopped: bool)
    requires chunks == ScanLines(prior, parse).chunks && !ScanLines(prior, parse).done
    ensures out == ScanLines(prior + complete, parse).chunks && stopped == ScanLines(prior + complete, parse).done
  {
    out := chunks;
    var j := 0;
    ghost var seen := prior;
    assert prior + complete[..0] == prior;
    while j < |complete|
      invariant 0 <= j <= |complete| && seen == prior + complete[..j]
      invariant out == ScanLines(seen, parse).chunks && !ScanLines(seen, parse).done
    {
      var line := complete[j];
      ScanOneMore(seen, line, parse);
      ExtendPrefix(prior, complete, j);
      if StartsWith(line, "data: ") {
        var data := line[6..];
        if Trim(data) == "[DONE]" {
          RunStops(prior, complete, j, parse);
          return out, true;
        }
        var parsed := parse(data);
        if parsed.Some? {
          out := out + [DifyChunk("message", parsed.value)];
        }
      }
      seen := seen + [line];
      j := j + 1;
    }
    assert complete[..|complete|] == complete;
    stopped := false;
  }

  lemma ScanOneMore<J>(seen: seq<string>, line: string, parse: string -> Option<J>)
    ensures ScanLines(seen + [line], parse) == Then(ScanLines(seen, parse), Step(line, Scan([], false), parse))
  {
    ScanLinesAppend(seen, [line], parse);
    assert [line][1..] == [];
  }

  /** A `[DONE]` line at position `j` of a run, with nothing stopping before it, decides the scan of the whole run. */
  lemma RunStops<J>(prior: seq<string>, complete: seq<string>, j: nat, parse: string -> Option<J>)
    requires j < |complete| && IsDoneLine(complete[j])
    requires !ScanLines(prior + complete[..j], parse).done
    ensures ScanLines(prior + complete, parse) == Scan(ScanLines(prior + complete[..j], parse).chunks, true)
  {
    var seen := prior + complete[..j];
    ScanOneMore(seen, complete[j], parse);
    AppendAround(prior, complete, j);
    ScanLinesAppend(seen + [complete[j]], complete[j + 1..], parse);
  }

  /**
   * One step of the buffer: appending the next chunk to the buffer and
   * splitting gives the complete lines the chunk finishes, which extend
   * the complete lines read so far.
   */
  lemma NextLinesStep(body: seq<string>, i: nat, consumed: seq<string>, buffer: string)
    requires i < |body|
    requires consumed == CompleteLines(Concat(body[..i])) && buffer == Last(Split(Concat(body[..i]), '\n'))
    ensures var complete := AllButLast(Split(buffer + body[i], '\n'));
      && consumed + complete == CompleteLines(Concat(body[..i + 1]))
      && Last(Split(buffer + body[i], '\n')) == Last(Split(Concat(body[..i + 1]), '\n'))
      && var all := CompleteLines(Concat(body));
         |consumed + complete| <= |all| && all[..|consumed + complete|] == consumed + complete
  {
    ConcatStep(body, i);
    SplitFurther(Concat(body[..i]), body[i]);
    ConcatPrefix(body, i + 1);
  }

  /** The text of the first `i + 1` chunks. */
  lemma ConcatStep(body: seq<string>, i: nat)
    requires i < |body|
    ensures Concat(body[..i + 1]) == Concat(body[..i]) + body[i]
  {
    assert body[..i + 1][..i] == body[..i];
  }

  /** The complete lines of the first `i` chunks come first among those of the whole body. */
  lemma ConcatPrefix(body: seq<string>, i: nat)
    requires i <= |body|
    ensures var p := CompleteLines(Concat(body[..i])); var all := CompleteLines(Concat(body));
      |p| <= |all| && all[..|p|] == p
  {
    assert body == body[..i] + body[i..];
    ConcatAppend(body[..i], body[i..]);
    CompleteLinesExtend(Concat(body[..i]), Concat(body[i..]));
  }

  /** The complete lines `buffer + body[i]` yields, with the facts the loop needs about them. */
  method NextLines(body: seq<string>, i: nat, ghost consumed: seq<string>, buffer: string) returns (complete: seq<string>)
    requires i < |body|
    requires consumed == CompleteLines(Concat(body[..i])) && buffer == Last(Split(Concat(body[..i]), '\n'))
    ensures complete == AllButLast(Split(buffer + body[i], '\n'))
    ensures consumed + complete == CompleteLines(Concat(body[..i + 1]))
    ensures Last(Split(buffer + body[i], '\n')) == Last(Split(Concat(body[..i + 1]), '\n'))
    ensures var all := CompleteLines(Concat(body));
      |consumed + complete| <= |all| && all[..|consumed + complete|] == consumed + complete
  {
    NextLinesStep(body, i, consumed, buffer);
    complete := AllButLast(Split(buffer + body[i], '\n'));
  }
}

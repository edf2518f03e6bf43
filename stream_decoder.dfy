/**
 * The reply decoder of `sendMessage`: a cut-down reader for the event-stream
 * format of the WHATWG HTML Living Standard, section 9.2 (server-sent
 * events), plus the upstream chat API's `[DONE]` convention.
 *
 * This module is the specification of the decoder as pure functions:
 * `Lines` is one run of the inner `while (indexOf('\n') !== -1)` loop,
 * `Feed` is one chunk arriving, `Run` is a whole sequence of chunks.
 * The JSON step (`JSON.parse` followed by `choices?.[0]?.delta?.content`)
 * is the parameter `parse`.
 */
module StreamDecoder {
  import opened Wrappers
  import opened Text

  /** What `JSON.parse` plus the optional-chaining lookup yield for one payload. */
  datatype ParseOutcome = ParseFailed | Parsed(content: Option<string>)

  /** How a (carriage-return stripped) line is treated. */
  datatype LineKind = Ignored | Data(payload: string)

  /** Why the inner loop stopped. */
  datatype Stop = Drained | SawDone | Requeued

  /** The decoder's carry-over `buffer` and the `assistantContent` built so far. */
  datatype Session = Session(buffer: string, content: string)

  datatype LinesResult = LinesResult(rest: string, fragments: seq<string>, stop: Stop)

  datatype FeedResult = FeedResult(session: Session, fragments: seq<string>, stop: Stop)

  datatype RunResult = RunResult(session: Session, fragments: seq<string>)

  const DataPrefix: string := "data: "
  const DoneMarker: string := "[DONE]"

  /** `line.endsWith('\r') ? line.slice(0, -1) : line` */
  function StripCR(line: string): string {
    if EndsWith(line, "\r") then line[..|line| - 1] else line
  }

  /** Comments (`:`), blank lines and lines without the `data: ` prefix are ignored. */
  function Classify(line: string): LineKind {
    if StartsWith(line, ":") || Trim(line) == [] then Ignored
    else if !StartsWith(line, DataPrefix) then Ignored
    else Data(Trim(line[|DataPrefix|..]))
  }

  /** The text a parsed payload contributes: only a truthy (non-empty) content string. */
  function Fragment(c: Option<string>): string {
    if c.Some? then c.value else ""
  }

  /**
   * What `Act` does, stated on the raw line: `[DONE]` and unparsable
   * payloads are recognised only on `data: ` lines, and a fragment is
   * reported exactly when the payload parses to a non-empty content
   * string, which is then the fragment.
   */
  lemma ActMeaning(line: string, parse: string -> ParseOutcome)
    ensures Act(line, parse) == Finish <==>
              StartsWith(line, DataPrefix) && Trim(line[|DataPrefix|..]) == DoneMarker
    ensures Act(line, parse) == PutBack <==>
              && StartsWith(line, DataPrefix) && Trim(line[|DataPrefix|..]) != DoneMarker
              && parse(Trim(line[|DataPrefix|..])) == ParseFailed
    ensures Act(line, parse).Emit? ==>
              && StartsWith(line, DataPrefix) && Trim(line[|DataPrefix|..]) != DoneMarker
              && parse(Trim(line[|DataPrefix|..])) == Parsed(Some(Act(line, parse).fragment))
              && Act(line, parse).fragment != ""
    ensures Act(line, parse).Emit? <==>
              && StartsWith(line, DataPrefix) && Trim(line[|DataPrefix|..]) != DoneMarker
              && parse(Trim(line[|DataPrefix|..])).Parsed?
              && parse(Trim(line[|DataPrefix|..])).content.Some?
              && parse(Trim(line[|DataPrefix|..])).content.value != ""
  {
    DataLineIff(line);
  }

  /** The in-order concatenation of fragments. */
  function Concat(fs: seq<string>): string {
    if |fs| == 0 then [] else fs[0] + Concat(fs[1..])
  }

  lemma {:induction false} ConcatAppend(a: seq<string>, b: seq<string>)
    ensures Concat(a + b) == Concat(a) + Concat(b)
  {
    if a == [] {
      assert a + b == b;
    } else {
      assert (a + b)[1..] == a[1..] + b;
      ConcatAppend(a[1..], b);
    }
  }

  /** `b` is a suffix of `a` that starts right after a newline of `a` (or is all of it). */
  predicate RestAfterNewline(b: string, a: string) {
    |b| <= |a| && a[|a| - |b|..] == b && (|b| < |a| ==> a[|a| - |b| - 1] == '\n')
  }

  /** What the inner loop does with one complete, CR-stripped line. */
  datatype Action = Skip | Finish | PutBack | Emit(fragment: string)

  function Act(line: string, parse: string -> ParseOutcome): (a: Action)
    ensures a.Emit? ==> a.fragment != ""
  {
    match Classify(line)
    case Ignored => Skip
    case Data(payload) =>
      if payload == DoneMarker then Finish
      else
        match parse(payload)
        case ParseFailed => PutBack
        case Parsed(c) => if Fragment(c) != "" then Emit(Fragment(c)) else Skip
  }

  lemma RestAfterNewlineTrans(c: string, b: string, a: string)
    ensures RestAfterNewline(c, b) && RestAfterNewline(b, a) ==> RestAfterNewline(c, a)
  {
    if RestAfterNewline(c, b) && RestAfterNewline(b, a) {
      assert a[|a| - |b|..][|b| - |c|..] == a[|a| - |c|..];
      if |c| < |b| {
        assert a[|a| - |c| - 1] == b[|b| - |c| - 1];
      }
    }
  }

  /**
   * One run of the inner loop over `buffer`. Each complete line is split
   * off and acted on: a `[DONE]` payload stops the loop with the rest of
   * the buffer kept; a payload that does not parse is put back,
   * CR-stripped and followed by '\n', in front of the rest, and stops the
   * loop; a non-empty content string is reported as a fragment; anything
   * else is skipped. `rest` is what the buffer holds when the loop ends.
   */
  function Lines(buffer: string, parse: string -> ParseOutcome): (r: LinesResult)
    decreases |buffer|
  {
    var i := IndexOf(buffer, '\n');
    if i < 0 then
      LinesResult(buffer, [], Drained)
    else
      var line := StripCR(buffer[..i]);
      var rest := buffer[i + 1..];
      match Act(line, parse)
      case Skip => Lines(rest, parse)
      case Finish => LinesResult(rest, [], SawDone)
      case PutBack => LinesResult(line + "\n" + rest, [], Requeued)
      case Emit(f) =>
        var r := Lines(rest, parse);
        LinesResult(r.rest, [f] + r.fragments, r.stop)
  }

  /**
   * What the inner loop leaves in the buffer: when it drains, exactly the
   * text after the last '\n' (the unterminated tail); after `[DONE]`, the
   * text after the `[DONE]` line; after a parse failure, text that still
   * holds a complete line, and no more text than before.
   */
  lemma {:induction false} LinesBuffer(buffer: string, parse: string -> ParseOutcome)
    ensures var r := Lines(buffer, parse);
            && (r.stop != Requeued ==> RestAfterNewline(r.rest, buffer))
            && (r.stop == Drained ==> '\n' !in r.rest)
            && (r.stop == Requeued ==> |r.rest| <= |buffer| && '\n' in r.rest)
    decreases |buffer|
  {
    var i := IndexOf(buffer, '\n');
    if i >= 0 {
      var line := StripCR(buffer[..i]);
      var rest := buffer[i + 1..];
      assert RestAfterNewline(rest, buffer);
      match Act(line, parse)
      case Skip =>
        LinesBuffer(rest, parse);
        RestAfterNewlineTrans(Lines(rest, parse).rest, rest, buffer);
      case Finish =>
      case PutBack =>
        assert (line + "\n" + rest)[|line|] == '\n';
      case Emit(f) =>
        LinesBuffer(rest, parse);
        RestAfterNewlineTrans(Lines(rest, parse).rest, rest, buffer);
    }
  }

  /** Every fragment the inner loop reports is non-empty. */
  lemma {:induction false} LinesFragmentsNonEmpty(buffer: string, parse: string -> ParseOutcome)
    ensures forall f <- Lines(buffer, parse).fragments :: |f| > 0
    decreases |buffer|
  {
    var i := IndexOf(buffer, '\n');
    if i >= 0 {
      LinesFragmentsNonEmpty(buffer[i + 1..], parse);
    }
  }

  /** One chunk arrives: `buffer += chunk`, then the inner loop appends its fragments to the content. */
  function Feed(s: Session, chunk: string, parse: string -> ParseOutcome): FeedResult {
    var r := Lines(s.buffer + chunk, parse);
    FeedResult(Session(r.rest, s.content + Concat(r.fragments)), r.fragments, r.stop)
  }

  /**
   * The outer loop: the chunks arrive in order and `feed` handles each one,
   * the session passing from each feed to the next.
   */
  function Stream(feed: (Session, string) -> FeedResult, s: Session, chunks: seq<string>): RunResult {
    if chunks == [] then RunResult(s, [])
    else
      var r := Stream(feed, s, chunks[..|chunks| - 1]);
      var f := feed(r.session, chunks[|chunks| - 1]);
      RunResult(f.session, r.fragments + f.fragments)
  }

  /** A stream read in two parts: the second part continues from the session the first left. */
  lemma {:induction false} StreamAppend(feed: (Session, string) -> FeedResult, s: Session, a: seq<string>, b: seq<string>)
    ensures var r := Stream(feed, s, a);
            var q := Stream(feed, r.session, b);
            Stream(feed, s, a + b) == RunResult(q.session, r.fragments + q.fragments)
    decreases |b|
  {
    if b == [] {
      assert a + b == a;
    } else {
      var b', c := b[..|b| - 1], b[|b| - 1];
      assert (a + b)[..|a + b| - 1] == a + b' && (a + b)[|a + b| - 1] == c;
      StreamAppend(feed, s, a, b');
      var r := Stream(feed, s, a);
      var q := Stream(feed, r.session, b');
      var f := feed(q.session, c);
      assert r.fragments + q.fragments + f.fragments == r.fragments + (q.fragments + f.fragments);
    }
  }

  /** The whole reply: the outer loop with the decoder's own feed. */
  function Run(s: Session, chunks: seq<string>, parse: string -> ParseOutcome): RunResult {
    Stream((t, c) => Feed(t, c, parse), s, chunks)
  }

  /** The content at any point is the starting content followed by every fragment reported so far, in order. */
  lemma {:induction false} RunContent(s: Session, chunks: seq<string>, parse: string -> ParseOutcome)
    ensures Run(s, chunks, parse).session.content == s.content + Concat(Run(s, chunks, parse).fragments)
  {
    if chunks != [] {
      var r := Run(s, chunks[..|chunks| - 1], parse);
      RunContent(s, chunks[..|chunks| - 1], parse);
      ConcatAppend(r.fragments, Feed(r.session, chunks[|chunks| - 1], parse).fragments);
    }
  }

  /** The same for the decoder's own feed. */
  lemma RunAppend(s: Session, a: seq<string>, b: seq<string>, parse: string -> ParseOutcome)
    ensures var r := Run(s, a, parse);
            var q := Run(r.session, b, parse);
            Run(s, a + b, parse) == RunResult(q.session, r.fragments + q.fragments)
  {
    StreamAppend((t, c) => Feed(t, c, parse), s, a, b);
  }

  /** Every fragment appended over a whole stream is non-empty. */
  lemma {:induction false} RunFragmentsNonEmpty(s: Session, chunks: seq<string>, parse: string -> ParseOutcome)
    ensures forall f <- Run(s, chunks, parse).fragments :: |f| > 0
  {
    if chunks != [] {
      RunFragmentsNonEmpty(s, chunks[..|chunks| - 1], parse);
      LinesFragmentsNonEmpty(Run(s, chunks[..|chunks| - 1], parse).session.buffer + chunks[|chunks| - 1], parse);
    }
  }

  /** One more chunk: the feed continues from the session the earlier chunks left. */
  lemma RunSnoc(s: Session, cs: seq<string>, c: string, parse: string -> ParseOutcome)
    ensures var r := Run(s, cs, parse);
            var f := Feed(r.session, c, parse);
            Run(s, cs + [c], parse) == RunResult(f.session, r.fragments + f.fragments)
  {
    assert (cs + [c])[..|cs|] == cs;
  }

  /**
   * The inner loop read one character at a time: `pending` is the part of
   * the current line seen so far. Used to reason about chunk boundaries.
   */
  function Scan(pending: string, input: string, parse: string -> ParseOutcome): LinesResult
    decreases |input|
  {
    if input == [] then LinesResult(pending, [], Drained)
    else if input[0] != '\n' then Scan(pending + [input[0]], input[1..], parse)
    else
      var line := StripCR(pending);
      var rest := input[1..];
      match Act(line, parse)
      case Skip => Scan([], rest, parse)
      case Finish => LinesResult(rest, [], SawDone)
      case PutBack => LinesResult(line + "\n" + rest, [], Requeued)
      case Emit(f) =>
        var r := Scan([], rest, parse);
        LinesResult(r.rest, [f] + r.fragments, r.stop)
  }

  /** Characters without a newline only extend the pending line. */
  lemma {:induction false} ScanNoNewline(pending: string, text: string, more: string, parse: string -> ParseOutcome)
    requires '\n' !in text
    ensures Scan(pending, text + more, parse) == Scan(pending + text, more, parse)
    decreases |text|
  {
    if text == [] {
      assert text + more == more;
      assert pending + text == pending;
    } else {
      assert (text + more)[0] == text[0];
      assert (text + more)[1..] == text[1..] + more;
      assert pending + text == (pending + [text[0]]) + text[1..];
      ScanNoNewline(pending + [text[0]], text[1..], more, parse);
    }
  }

  /** Text without a newline is kept whole as the unterminated tail. */
  lemma ScanTail(text: string, parse: string -> ParseOutcome)
    requires '\n' !in text
    ensures Scan([], text, parse) == LinesResult(text, [], Drained)
  {
    ScanNoNewline([], text, [], parse);
    assert text + [] == text;
    assert [] + text == text;
  }

  /** The first complete line is gathered as the pending line. */
  lemma ScanHead(head: string, rest: string, parse: string -> ParseOutcome)
    requires '\n' !in head
    ensures Scan([], head + "\n" + rest, parse) == Scan(head, "\n" + rest, parse)
  {
    assert head + "\n" + rest == head + ("\n" + rest);
    ScanNoNewline([], head, "\n" + rest, parse);
    assert [] + head == head;
  }

  /** The index-based loop and the character-based reading agree. */
  lemma {:induction false} LinesIsScan(buffer: string, parse: string -> ParseOutcome)
    ensures Lines(buffer, parse) == Scan([], buffer, parse)
    decreases |buffer|
  {
    var i := IndexOf(buffer, '\n');
    if i < 0 {
      ScanTail(buffer, parse);
    } else {
      var rest := buffer[i + 1..];
      assert buffer == buffer[..i] + "\n" + rest;
      ScanHead(buffer[..i], rest, parse);
      assert ("\n" + rest)[1..] == rest;
      LinesIsScan(rest, parse);
    }
  }

  /** Splitting the input of a character-based reading that drains. */
  lemma {:induction false} ScanSplit(pending: string, text: string, more: string, parse: string -> ParseOutcome)
    requires Scan(pending, text, parse).stop == Drained
    ensures var r1 := Scan(pending, text, parse);
            var r2 := Scan(r1.rest, more, parse);
            Scan(pending, text + more, parse) == LinesResult(r2.rest, r1.fragments + r2.fragments, r2.stop)
    decreases |text|
  {
    if text == [] {
      assert text + more == more;
      var r2 := Scan(pending, more, parse);
      assert [] + r2.fragments == r2.fragments;
    } else {
      assert (text + more)[0] == text[0];
      assert (text + more)[1..] == text[1..] + more;
      if text[0] != '\n' {
        ScanSplit(pending + [text[0]], text[1..], more, parse);
      } else {
        var line := StripCR(pending);
        match Act(line, parse)
        case Skip =>
          ScanSplit([], text[1..], more, parse);
        case Emit(f) =>
          ScanSplit([], text[1..], more, parse);
          var r1 := Scan([], text[1..], parse);
          var r2 := Scan(r1.rest, more, parse);
          assert [f] + (r1.fragments + r2.fragments) == ([f] + r1.fragments) + r2.fragments;
      }
    }
  }

  /**
   * Chunk boundaries do not matter: when the inner loop has drained the
   * buffer, appending `more` and looping again gives exactly what the whole
   * text gives at once. In particular a line split across two chunks decodes
   * as if it had arrived whole.
   */
  lemma LinesSplit(buffer: string, more: string, parse: string -> ParseOutcome)
    requires Lines(buffer, parse).stop == Drained
    ensures var r1 := Lines(buffer, parse);
            var r2 := Lines(r1.rest + more, parse);
            Lines(buffer + more, parse) == LinesResult(r2.rest, r1.fragments + r2.fragments, r2.stop)
  {
    LinesIsScan(buffer, parse);
    LinesIsScan(buffer + more, parse);
    LinesIsScan(Lines(buffer, parse).rest + more, parse);
    ScanSplit([], buffer, more, parse);
    LinesBuffer(buffer, parse);
    var t := Lines(buffer, parse).rest;
    ScanNoNewline([], t, more, parse);
    assert [] + t == t;
  }

  /**
   * The buffer starts with a complete data line whose payload does not parse
   * (and is not `[DONE]`): every later inner loop stops on it again.
   */
  predicate Stalled(buffer: string, parse: string -> ParseOutcome) {
    var i := IndexOf(buffer, '\n');
    i >= 0 && Act(StripCR(buffer[..i]), parse) == PutBack
  }

  /** A line is a data line exactly when it starts with the `data: ` prefix. */
  lemma DataLineIff(line: string)
    ensures Classify(line).Data? <==> StartsWith(line, DataPrefix)
    ensures Classify(line).Data? ==> Classify(line).payload == Trim(line[|DataPrefix|..])
  {
    if StartsWith(line, DataPrefix) {
      assert line[0] == 'd';
      TrimNonSpaceStart(line);
    }
  }

  /** Stripping the carriage return a second time does not change how a data line is read. */
  lemma ClassifyStripAgain(line: string)
    requires Classify(line).Data?
    ensures Classify(StripCR(line)) == Classify(line)
  {
    DataLineIff(line);
    if EndsWith(line, "\r") {
      var l := line[..|line| - 1];
      assert line[5] == ' ';
      assert l[..6] == line[..6];
      DataLineIff(l);
      assert line[6..] == l[6..] + "\r";
      TrimIgnoresTrailingSpace(l[6..], '\r');
    }
  }

  /** A failing data line put back in front of any text stalls the buffer. */
  lemma StalledPrefix(line: string, rest: string, parse: string -> ParseOutcome)
    requires '\n' !in line
    requires Act(line, parse) == PutBack
    ensures Stalled(line + "\n" + rest, parse)
  {
    var b := line + "\n" + rest;
    assert b[|line|] == '\n';
    assert b[..|line|] == line;
    assert IndexOf(b, '\n') == |line|;
    ClassifyStripAgain(line);
  }

  /** A re-queued line leaves the buffer stalled. */
  lemma {:induction false} RequeueStalls(buffer: string, parse: string -> ParseOutcome)
    requires Lines(buffer, parse).stop == Requeued
    ensures Stalled(Lines(buffer, parse).rest, parse)
    decreases |buffer|
  {
    var i := IndexOf(buffer, '\n');
    var line := StripCR(buffer[..i]);
    var rest := buffer[i + 1..];
    assert '\n' !in line by { assert line == buffer[..i] || line == buffer[..i][..|line|]; }
    match Act(line, parse)
    case Skip => RequeueStalls(rest, parse);
    case PutBack => StalledPrefix(line, rest, parse);
    case Emit(f) => RequeueStalls(rest, parse);
  }

  /**
   * Once stalled, the inner loop emits nothing, stops on the same line
   * again and leaves the buffer stalled, whatever text was appended.
   */
  lemma StalledLines(buffer: string, more: string, parse: string -> ParseOutcome)
    requires Stalled(buffer, parse)
    ensures var r := Lines(buffer + more, parse);
            r.fragments == [] && r.stop == Requeued && Stalled(r.rest, parse)
  {
    var b := buffer + more;
    var i := IndexOf(buffer, '\n');
    IndexOfAppend(buffer, more, '\n');
    assert b[..i] == buffer[..i];
    var line := StripCR(b[..i]);
    assert '\n' !in line by { assert line == b[..i] || line == b[..i][..|line|]; }
    StalledPrefix(line, b[i + 1..], parse);
  }

  /** After a parse failure, nothing later in the stream is ever emitted. */
  lemma {:induction false} StalledRun(s: Session, chunks: seq<string>, parse: string -> ParseOutcome)
    requires Stalled(s.buffer, parse)
    ensures Run(s, chunks, parse).fragments == []
    ensures Run(s, chunks, parse).session.content == s.content
    ensures Stalled(Run(s, chunks, parse).session.buffer, parse)
  {
    if chunks != [] {
      StalledRun(s, chunks[..|chunks| - 1], parse);
      StalledLines(Run(s, chunks[..|chunks| - 1], parse).session.buffer, chunks[|chunks| - 1], parse);
    }
  }

  /**
   * The whole-stream consequence: when the feed of chunk `k` stops on a
   * parse failure, the content at the end of the stream is the content
   * that feed left, whatever chunks follow.
   */
  lemma RequeueFreezesReply(s: Session, chunks: seq<string>, k: nat, parse: string -> ParseOutcome)
    requires k < |chunks|
    requires Feed(Run(s, chunks[..k], parse).session, chunks[k], parse).stop == Requeued
    ensures Run(s, chunks, parse).session.content == Feed(Run(s, chunks[..k], parse).session, chunks[k], parse).session.content
  {
    var f := Feed(Run(s, chunks[..k], parse).session, chunks[k], parse);
    assert Run(s, chunks[..k + 1], parse).session == f.session by {
      RunSnoc(s, chunks[..k], chunks[k], parse);
      assert chunks[..k] + [chunks[k]] == chunks[..k + 1];
    }
    RunAppend(s, chunks[..k + 1], chunks[k + 1..], parse);
    assert chunks[..k + 1] + chunks[k + 1..] == chunks;
    RequeueStalls(Run(s, chunks[..k], parse).session.buffer + chunks[k], parse);
    StalledRun(f.session, chunks[k + 1..], parse);
  }

  /** One step of the inner loop: the first complete line is acted on and the rest follows. */
  lemma LinesFirstLine(line: string, rest: string, parse: string -> ParseOutcome)
    requires '\n' !in line
    ensures Lines(line + "\n" + rest, parse) ==
              match Act(StripCR(line), parse)
              case Skip => Lines(rest, parse)
              case Finish => LinesResult(rest, [], SawDone)
              case PutBack => LinesResult(StripCR(line) + "\n" + rest, [], Requeued)
              case Emit(f) =>
                LinesResult(Lines(rest, parse).rest, [f] + Lines(rest, parse).fragments, Lines(rest, parse).stop)
  {
    var b := line + "\n" + rest;
    IndexOfFirst(line, '\n', rest);
    assert b[..|line|] == line;
    assert b[|line| + 1..] == rest;
  }

  /** The same step stated on the buffer as the inner loop sees it. */
  lemma LinesStep(buffer: string, parse: string -> ParseOutcome)
    requires IndexOf(buffer, '\n') >= 0
    ensures var i := IndexOf(buffer, '\n');
            var line, rest := StripCR(buffer[..i]), buffer[i + 1..];
            Lines(buffer, parse) ==
              match Act(line, parse)
              case Skip => Lines(rest, parse)
              case Finish => LinesResult(rest, [], SawDone)
              case PutBack => LinesResult(line + "\n" + rest, [], Requeued)
              case Emit(f) =>
                LinesResult(Lines(rest, parse).rest, [f] + Lines(rest, parse).fragments, Lines(rest, parse).stop)
  {
  }

  /**
   * A data line split across two chunks: the first chunk shows nothing,
   * and once the newline arrives the payload's content is appended as if
   * the line had come whole.
   */
  lemma SplitDataLine(s: Session, x: string, y: string, t: string, parse: string -> ParseOutcome)
    requires s.buffer == []
    requires '\n' !in x + y
    requires Trim(x + y) != DoneMarker && parse(Trim(x + y)) == Parsed(Some(t)) && t != ""
    ensures var first := Feed(s, DataPrefix + x, parse);
            var second := Feed(first.session, y + "\n\n", parse);
            && first.fragments == [] && first.session.content == s.content
            && second.fragments == [t] && second.session == Session([], s.content + t)
  {
    var line := DataPrefix + (x + y);
    assert '\n' !in line;
    var b1 := s.buffer + (DataPrefix + x);
    assert b1 == line[..|DataPrefix| + |x|];
    assert '\n' !in b1;
    var first := Feed(s, DataPrefix + x, parse);
    assert first.session.buffer == b1;
    assert b1 + (y + "\n\n") == line + "\n" + "\n";
    LinesFirstLine(line, "\n", parse);
    DataLineIff(line);
    assert line[|DataPrefix|..] == x + y;
    ClassifyStripAgain(line);
    assert Act(StripCR(line), parse) == Emit(t);
    assert "\n" == [] + "\n" + [];
    LinesFirstLine([], [], parse);
  }

  /** The line `data: [DONE]` is the end marker, with or without a carriage return. */
  lemma DoneLine(parse: string -> ParseOutcome)
    ensures '\n' !in DataPrefix + DoneMarker
    ensures Act(StripCR(DataPrefix + DoneMarker), parse) == Finish
    ensures Act(StripCR(DataPrefix + DoneMarker + "\r"), parse) == Finish
  {
    var line := DataPrefix + DoneMarker;
    DataLineIff(line);
    assert line[|DataPrefix|..] == DoneMarker;
    TrimUntouched(DoneMarker);
    ClassifyStripAgain(line);
    assert StripCR(line + "\r") == line;
  }

  /**
   * `[DONE]` ends only the current inner loop: whatever followed it in the
   * same chunk stays in the buffer, and is read when the next chunk arrives.
   */
  lemma DoneKeepsRest(s: Session, rest: string, parse: string -> ParseOutcome)
    requires s.buffer == []
    ensures var f := Feed(s, DataPrefix + DoneMarker + "\n" + rest, parse);
            f.stop == SawDone && f.fragments == [] && f.session == Session(rest, s.content)
  {
    var line := DataPrefix + DoneMarker;
    assert [] + (line + "\n" + rest) == line + "\n" + rest;
    DoneLine(parse);
    LinesFirstLine(line, rest, parse);
  }
}

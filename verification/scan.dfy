/**
 The newest turn event of a rollout (backend/guardian.py, `_recent_rollout_turn_state`): a scan of
 the file from its end, block by block, against a scan of its lines.
 */
module TurnScan {
  import opened Common

  type Byte = x: int | 0 <= x < 256

  const NEWLINE: Byte := 10
  const RETURN: Byte := 13

  datatype Event = TaskStarted | TaskComplete | TurnAborted

  datatype State = Found(event: Event) | Uncertain | Nothing

  /**
   `block`, `cap` and `limit` are the read size, the total number of bytes scanned and the longest
   line parsed; `parse` gives the event kind held by the text of a line.
   */
  datatype Scan = Scan(block: nat, cap: nat, limit: nat, parse: seq<Byte> -> Option<Event>)

  function Strip(raw: seq<Byte>): seq<Byte> {
    if raw != [] && Final(raw) == RETURN then Strip(raw[..|raw| - 1]) else raw
  }

  /** The event a line carries. */
  function EventOf(s: Scan, raw: seq<Byte>): Option<Event> {
    var text := Strip(raw);
    if text == [] then None else s.parse(text)
  }

  function Returns(n: nat): seq<Byte> {
    seq(n, _ => RETURN)
  }

  /** A line is its text and the carriage returns after it. */
  lemma {:induction false} StripIs(raw: seq<Byte>)
    ensures |Strip(raw)| <= |raw| && raw == Strip(raw) + Returns(|raw| - |Strip(raw)|)
    ensures Strip(raw) == [] || Final(Strip(raw)) != RETURN
  {
    if raw != [] && Final(raw) == RETURN {
      var shorter := raw[..|raw| - 1];
      StripIs(shorter);
      assert raw == shorter + [RETURN];
      assert Returns(|raw| - |Strip(raw)|) == Returns(|shorter| - |Strip(raw)|) + [RETURN];
    }
  }

  lemma {:induction false} StripReturns(text: seq<Byte>, n: nat)
    requires text == [] || Final(text) != RETURN
    ensures Strip(text + Returns(n)) == text
    decreases n
  {
    if n == 0 {
      assert text + Returns(0) == text;
    } else {
      var raw := text + Returns(n);
      assert Final(raw) == RETURN && raw[..|raw| - 1] == text + Returns(n - 1);
      StripReturns(text, n - 1);
    }
  }

  /** A line carries what its text parses to, whatever carriage returns follow; a line without text carries nothing. */
  lemma EventOfText(s: Scan, text: seq<Byte>, n: nat)
    requires text == [] || Final(text) != RETURN
    ensures EventOf(s, text + Returns(n)) == if text == [] then None else s.parse(text)
  {
    StripReturns(text, n);
  }

  // ------------------------------------------------------------------ the lines

  /** `bytes.split(b"\n")`: at least one part, and one more for every newline. */
  function Split(file: seq<Byte>): (lines: seq<seq<Byte>>)
    ensures lines != []
  {
    if file == [] then [[]] else Prepend(file[0], Split(file[1..]))
  }

  function Prepend(x: Byte, lines: seq<seq<Byte>>): (r: seq<seq<Byte>>)
    requires lines != []
    ensures r != []
  {
    if x == NEWLINE then [[]] + lines else [[x] + lines[0]] + lines[1..]
  }

  /** Two runs of lines; the last of one and the first of the other are one line. */
  function Glue(a: seq<seq<Byte>>, b: seq<seq<Byte>>): seq<seq<Byte>>
    requires a != [] && b != []
  {
    a[..|a| - 1] + [Final(a) + b[0]] + b[1..]
  }

  lemma PrependGlue(x: Byte, a: seq<seq<Byte>>, b: seq<seq<Byte>>)
    requires a != [] && b != []
    ensures Prepend(x, Glue(a, b)) == Glue(Prepend(x, a), b)
  {
    if x != NEWLINE && |a| == 1 {
      assert [x] + (a[0] + b[0]) == ([x] + a[0]) + b[0];
    }
  }

  lemma {:induction false} SplitAppend(a: seq<Byte>, b: seq<Byte>)
    ensures Split(a + b) == Glue(Split(a), Split(b))
  {
    if a == [] {
      assert a + b == b && [] + Split(b)[0] == Split(b)[0];
    } else {
      assert (a + b)[1..] == a[1..] + b;
      SplitAppend(a[1..], b);
      PrependGlue(a[0], Split(a[1..]), Split(b));
    }
  }

  lemma {:induction false} SplitUnbroken(a: seq<Byte>)
    requires NEWLINE !in a
    ensures Split(a) == [a]
  {
    if a != [] {
      SplitUnbroken(a[1..]);
      assert a == [a[0]] + a[1..];
    }
  }

  lemma {:induction false} SplitEndsOpen(a: seq<Byte>)
    requires a != [] && Final(a) == NEWLINE
    ensures Final(Split(a)) == [] && |Split(a)| > 1
  {
    var front := a[..|a| - 1];
    assert a == front + [NEWLINE];
    assert Split([NEWLINE]) == [[], []] by {
      assert [NEWLINE][1..] == [];
    }
    SplitAppend(front, [NEWLINE]);
    hide Split;
    assert Glue(Split(front), [[], []]) == Split(front)[..|Split(front)| - 1] + [Final(Split(front)) + []] + [[]];
  }

  function Join(lines: seq<seq<Byte>>): seq<Byte>
    requires lines != []
  {
    if |lines| == 1 then lines[0] else lines[0] + [NEWLINE] + Join(lines[1..])
  }

  /** The parts are the file cut at its newlines. */
  lemma {:induction false} SplitCutsAtNewlines(file: seq<Byte>)
    ensures Join(Split(file)) == file
    ensures forall line <- Split(file) :: NEWLINE !in line
  {
    if file != [] {
      SplitCutsAtNewlines(file[1..]);
      var rest := Split(file[1..]);
      var lines := Split(file);
      if file[0] == NEWLINE {
        assert lines[1..] == rest;
      } else if |rest| > 1 {
        assert lines[1..] == rest[1..];
      }
    }
  }

  // --------------------------------------------------------------- the line scan

  /** The last event of the file, line by line from the end. */
  function LastEvent(s: Scan, lines: seq<seq<Byte>>): Option<Event> {
    if lines == [] then None
    else if EventOf(s, Final(lines)).Some? then EventOf(s, Final(lines))
    else LastEvent(s, lines[..|lines| - 1])
  }

  /** The line scan finds the event after which no line carries one. */
  lemma {:induction false} LastEventIs(s: Scan, lines: seq<seq<Byte>>, event: Event)
    ensures LastEvent(s, lines) == None <==> forall k :: 0 <= k < |lines| ==> EventOf(s, lines[k]).None?
    ensures LastEvent(s, lines) == Some(event) <==>
            exists k :: 0 <= k < |lines| && EventOf(s, lines[k]) == Some(event)
                        && forall j :: k < j < |lines| ==> EventOf(s, lines[j]).None?
  {
    hide EventOf;
    if lines != [] {
      var front := lines[..|lines| - 1];
      LastEventIs(s, front, event);
      assert forall k :: 0 <= k < |front| ==> front[k] == lines[k];
      if EventOf(s, Final(lines)) == Some(event) {
        assert EventOf(s, lines[|lines| - 1]) == Some(event);
      }
    }
  }

  /** No line within the limit carries an event. */
  predicate Quiet(s: Scan, lines: seq<seq<Byte>>) {
    forall k :: 0 <= k < |lines| ==> |lines[k]| <= s.limit ==> EventOf(s, lines[k]).None?
  }

  /** The event of some line, with no event on any later line within the limit. */
  predicate Newest(s: Scan, lines: seq<seq<Byte>>, event: Event) {
    exists k :: 0 <= k < |lines| && EventOf(s, lines[k]) == Some(event) && Quiet(s, lines[k + 1..])
  }

  predicate NoLongLine(s: Scan, lines: seq<seq<Byte>>) {
    forall k :: 0 <= k < |lines| ==> |lines[k]| <= s.limit
  }

  lemma {:induction false} QuietHasNone(s: Scan, lines: seq<seq<Byte>>)
    requires NoLongLine(s, lines) && Quiet(s, lines)
    ensures LastEvent(s, lines) == None
  {
    if lines != [] {
      QuietHasNone(s, lines[..|lines| - 1]);
    }
  }

  lemma LaterIsQuiet(s: Scan, lines: seq<seq<Byte>>, k: nat)
    requires NoLongLine(s, lines) && k < |lines| - 1 && Quiet(s, lines[k + 1..])
    ensures EventOf(s, Final(lines)).None? && Quiet(s, lines[..|lines| - 1][k + 1..])
  {
    hide EventOf;
    var n, later := |lines|, lines[k + 1..];
    assert later[n - 2 - k] == Final(lines);
    assert lines[..n - 1][k + 1..] == later[..n - 2 - k];
  }

  lemma {:induction false} NewestIsLast(s: Scan, lines: seq<seq<Byte>>, event: Event)
    requires NoLongLine(s, lines) && Newest(s, lines, event)
    ensures LastEvent(s, lines) == Some(event)
  {
    var k :| 0 <= k < |lines| && EventOf(s, lines[k]) == Some(event) && Quiet(s, lines[k + 1..]);
    hide EventOf;
    var n := |lines|;
    if k < n - 1 {
      var front := lines[..n - 1];
      LaterIsQuiet(s, lines, k);
      assert front[k] == lines[k];
      NewestIsLast(s, front, event);
    }
  }

  lemma NewestJoins(s: Scan, a: seq<seq<Byte>>, b: seq<seq<Byte>>, event: Event)
    requires Newest(s, b, event)
    ensures Newest(s, a + b, event)
  {
    var k :| 0 <= k < |b| && EventOf(s, b[k]) == Some(event) && Quiet(s, b[k + 1..]);
    assert (a + b)[|a| + k] == b[k] && (a + b)[|a| + k + 1..] == b[k + 1..];
  }

  // --------------------------------------------------------------- the block scan

  /**
   Between two blocks, with `rest` scanned: `pending` is the open line at its front, or that line
   was dropped as too long; every complete line of it is quiet.
   */
  predicate Scanned(s: Scan, rest: seq<Byte>, pending: seq<Byte>, skipping: bool) {
    && Quiet(s, Split(rest)[1..])
    && (if skipping then |Split(rest)[0]| > s.limit && pending == [] else Split(rest)[0] == pending)
  }

  /** The index after the last newline, 0 if there is none. */
  method AfterLastNewline(chunk: seq<Byte>) returns (n: nat)
    ensures n <= |chunk| && NEWLINE !in chunk[n..]
    ensures n > 0 ==> chunk[n - 1] == NEWLINE
  {
    n := |chunk|;
    while n > 0 && chunk[n - 1] != NEWLINE
      invariant n <= |chunk| && NEWLINE !in chunk[n..]
    {
      n := n - 1;
    }
  }

  /** The events of the complete lines of a block, the last line first. */
  method NewestOf(s: Scan, lines: seq<seq<Byte>>) returns (found: Option<Event>)
    ensures found.Some? ==> Newest(s, lines, found.value)
    ensures found.None? ==> Quiet(s, lines)
  {
    var k := |lines|;
    while k > 0
      invariant 0 <= k <= |lines|
      invariant Quiet(s, lines[k..])
    {
      k := k - 1;
      assert lines[k..] == [lines[k]] + lines[k + 1..];
      StripIs(lines[k]);
      if |Strip(lines[k])| <= s.limit {
        found := EventOf(s, lines[k]);
        if found.Some? {
          return;
        }
      }
    }
    found := None;
    assert lines[0..] == lines;
  }

  /**
   What a block contributes once the dropped line is cut off: `parts` are its lines, of which the
   last is complete now.
   */
  predicate Contributes(s: Scan, lines: seq<seq<Byte>>, parts: seq<seq<Byte>>, rest: seq<seq<Byte>>) {
    && parts != [] && |lines| == |parts| + |rest| && lines[|parts|..] == rest
    && lines[..|parts| - 1] == parts[..|parts| - 1]
    && (lines[|parts| - 1] == Final(parts)
        || (Final(parts) == [] && |lines[|parts| - 1]| > s.limit && |parts| > 1))
  }

  lemma OpenLineGrows(s: Scan, chunk: seq<Byte>, rest: seq<Byte>, pending: seq<Byte>)
    requires Scanned(s, rest, pending, false)
    ensures Contributes(s, Split(chunk + rest), Split(chunk + pending), Split(rest)[1..])
  {
    SplitCutsAtNewlines(rest);
    SplitUnbroken(pending);
    SplitAppend(chunk, rest);
    SplitAppend(chunk, pending);
    hide Split;
    GlueContributes(s, Split(chunk), Split(rest));
  }

  lemma GlueContributes(s: Scan, a: seq<seq<Byte>>, b: seq<seq<Byte>>)
    requires a != [] && b != []
    ensures Contributes(s, Glue(a, b), Glue(a, [b[0]]), b[1..])
  {
    var lines, parts := Glue(a, b), Glue(a, [b[0]]);
    assert |parts| == |a| && lines[..|a| - 1] == a[..|a| - 1] == parts[..|a| - 1];
    assert lines[|a|..] == b[1..];
  }

  lemma DroppedLineEnds(s: Scan, chunk: seq<Byte>, n: nat, rest: seq<Byte>)
    requires Scanned(s, rest, [], true) && 0 < n <= |chunk| && chunk[n - 1] == NEWLINE && NEWLINE !in chunk[n..]
    ensures Contributes(s, Split(chunk + rest), Split(chunk[..n] + []), Split(rest)[1..])
  {
    var a, b := chunk[..n], chunk[n..];
    assert chunk == a + b && a + [] == a;
    assert Final(a) == NEWLINE;
    SplitEndsOpen(a);
    SplitUnbroken(b);
    SplitAppend(a, b);
    SplitAppend(chunk, rest);
  }

  lemma DroppedLineGoesOn(s: Scan, chunk: seq<Byte>, rest: seq<Byte>)
    requires Scanned(s, rest, [], true) && NEWLINE !in chunk
    ensures Scanned(s, chunk + rest, [], true)
  {
    SplitUnbroken(chunk);
    SplitAppend(chunk, rest);
  }

  lemma LineOf(s: Scan, lines: seq<seq<Byte>>, parts: seq<seq<Byte>>, rest: seq<seq<Byte>>, k: nat)
    requires Contributes(s, lines, parts, rest) && k < |lines|
    ensures k < |parts| && EventOf(s, parts[k]).Some? ==> lines[k] == parts[k]
    ensures k < |parts| && |lines[k]| <= s.limit ==> lines[k] == parts[k]
    ensures k >= |parts| ==> lines[k] == rest[k - |parts|]
  {
    if k < |parts| - 1 {
      assert lines[k] == lines[..|parts| - 1][k] == parts[..|parts| - 1][k];
    } else if k >= |parts| {
      assert lines[|parts|..][k - |parts|] == lines[k];
    }
  }

  lemma LinesQuiet(s: Scan, lines: seq<seq<Byte>>, parts: seq<seq<Byte>>, rest: seq<seq<Byte>>, from: nat)
    requires Contributes(s, lines, parts, rest) && Quiet(s, rest) && from <= |parts|
    requires Quiet(s, parts[from..])
    ensures Quiet(s, lines[from..])
  {
    hide EventOf;
    forall k | from <= k < |lines| && |lines[k]| <= s.limit
      ensures EventOf(s, lines[k]).None?
    {
      LineOf(s, lines, parts, rest, k);
      assert k < |parts| ==> parts[from..][k - from] == parts[k];
    }
  }

  lemma LinesNewest(s: Scan, lines: seq<seq<Byte>>, parts: seq<seq<Byte>>, rest: seq<seq<Byte>>, from: nat, event: Event)
    requires Contributes(s, lines, parts, rest) && Quiet(s, rest) && from <= |parts|
    requires Newest(s, parts[from..], event)
    ensures Newest(s, lines[from..], event)
  {
    hide EventOf, Quiet;
    var own := parts[from..];
    var k :| 0 <= k < |own| && EventOf(s, own[k]) == Some(event) && Quiet(s, own[k + 1..]);
    var at := from + k;
    LineOf(s, lines, parts, rest, at);
    assert own[k + 1..] == parts[at + 1..];
    LinesQuiet(s, lines, parts, rest, at + 1);
    assert lines[from..][k] == lines[at] && lines[from..][k + 1..] == lines[at + 1..];
  }

  /** An event found past the open line of a suffix is the newest of the whole file. */
  lemma SuffixNewest(s: Scan, front: seq<Byte>, rest: seq<Byte>, event: Event)
    requires Newest(s, Split(rest)[1..], event)
    ensures Newest(s, Split(front + rest), event)
  {
    SplitAppend(front, rest);
    var lines := Split(front);
    NewestJoins(s, lines[..|lines| - 1] + [Final(lines) + Split(rest)[0]], Split(rest)[1..], event);
  }

  datatype Step = Step(found: Option<Event>, pending: seq<Byte>, skipping: bool)

  /** One block: `position` is where it starts, `rest` what was scanned before it. */
  method ScanBlock(s: Scan, position: nat, chunk: seq<Byte>, pending: seq<Byte>, skipping: bool, ghost rest: seq<Byte>)
    returns (step: Step)
    requires Scanned(s, rest, pending, skipping)
    ensures step.found.None? && position > 0 ==> Scanned(s, chunk + rest, step.pending, step.skipping)
    ensures step.found.None? ==> Quiet(s, Split(chunk + rest)[1..])
    ensures step.found.None? && position == 0 ==>
              if step.skipping then |Split(chunk + rest)[0]| > s.limit else Quiet(s, Split(chunk + rest))
    ensures step.found.Some? ==>
              var lines := Split(chunk + rest);
              Newest(s, if position > 0 then lines[1..] else lines, step.found.value)
  {
    hide EventOf, Quiet, Newest, Contributes, Glue;
    var kept := chunk;
    if skipping {
      var n := AfterLastNewline(chunk);
      if n == 0 {
        assert chunk[0..] == chunk;
        DroppedLineGoesOn(s, chunk, rest);
        return Step(None, pending, true);
      }
      kept := chunk[..n];
      DroppedLineEnds(s, chunk, n, rest);
    } else {
      OpenLineGrows(s, chunk, rest, pending);
    }
    var parts := Split(kept + pending);
    ghost var lines, later := Split(chunk + rest), Split(rest)[1..];
    assert Contributes(s, lines, parts, later);
    step := ScanParts(s, position, parts, lines, later);
    if step.found.None? && position == 0 {
      QuietTail(s, lines);
    }
  }

  lemma QuietTail(s: Scan, lines: seq<seq<Byte>>)
    requires lines != [] && Quiet(s, lines)
    ensures Quiet(s, lines[1..])
  {
  }

  /** Where the next block after offset p begins. */
  function NextBlock(s: Scan, size: nat, p: nat): nat
    requires size - s.cap <= p <= size
  {
    p - Min(Min(s.block, p), s.cap - (size - p))
  }

  /**
   The scan stopped at offset p for one of three reasons: the first line is too long, the cap is
   reached, or the next block cannot be read; all it has seen complete is quiet.
   */
  predicate StoppedAt(s: Scan, file: seq<Byte>, readable: nat -> bool, p: nat) {
    && |file| - s.cap <= p <= |file| && Quiet(s, Split(file[p..])[1..])
    && (|| (p == 0 && |Split(file)[0]| > s.limit)
        || (p > 0 && |file| - p == s.cap)
        || (p > 0 && |file| - p < s.cap && !readable(NextBlock(s, |file|, p))))
  }

  /** The lines of one block. */
  method ScanParts(s: Scan, position: nat, parts: seq<seq<Byte>>, ghost lines: seq<seq<Byte>>, ghost later: seq<seq<Byte>>)
    returns (step: Step)
    requires Contributes(s, lines, parts, later) && Quiet(s, later)
    ensures step.found.None? && position > 0 ==> Quiet(s, lines[1..])
    ensures step.found.None? && position > 0 ==>
              if step.skipping then |lines[0]| > s.limit && step.pending == [] else lines[0] == step.pending
    ensures step.found.None? && position == 0 ==> !step.skipping && Quiet(s, lines)
    ensures step.found.Some? ==> Newest(s, if position > 0 then lines[1..] else lines, step.found.value)
  {
    hide EventOf, Quiet, Newest;
    var from := if position > 0 then 1 else 0;
    var found := NewestOf(s, parts[from..]);
    if found.Some? {
      LinesNewest(s, lines, parts, later, from, found.value);
      assert lines[0..] == lines;
      return Step(found, [], false);
    }
    LinesQuiet(s, lines, parts, later, from);
    assert lines[0..] == lines;
    if position == 0 {
      return Step(None, [], false);
    }
    assert lines[0] == parts[0] by {
      assert |parts| > 1 ==> lines[0] == lines[..|parts| - 1][0] == parts[..|parts| - 1][0];
    }
    step := if |parts[0]| > s.limit then Step(None, [], true) else Step(None, parts[0], false);
  }

  /** The scanning loop; `readable(p)` says whether the read at offset p returns the bytes asked for. */
  method ScanFile(s: Scan, file: seq<Byte>, readable: nat -> bool) returns (state: State)
    requires s.block > 0
    ensures state.Found? ==> Newest(s, Split(file), state.event)
    ensures state.Nothing? ==> Quiet(s, Split(file)) && |file| <= s.cap
    ensures state.Uncertain? ==> exists p: nat :: StoppedAt(s, file, readable, p)
  {
    hide EventOf, Quiet, Newest;
    var position := |file|;
    var pending, skipping := [], false;
    NothingScanned(s);
    assert file[|file|..] == [];
    while position > 0 && |file| - position < s.cap
      invariant 0 <= position <= |file| && |file| - position <= s.cap
      invariant position > 0 || file == [] ==> Scanned(s, file[position..], pending, skipping)
      invariant Quiet(s, Split(file[position..])[1..])
      invariant file == [] ==> !skipping
      invariant position == 0 && file != [] ==>
                  if skipping then |Split(file)[0]| > s.limit else Quiet(s, Split(file))
      decreases position
    {
      var size := Min(Min(s.block, position), s.cap - (|file| - position));
      ghost var rest := file[position..];
      position := position - size;
      if !readable(position) {
        assert StoppedAt(s, file, readable, |file| - |rest|);
        return Uncertain;
      }
      var chunk := file[position..position + size];
      assert file[position..] == chunk + rest;
      assert file == file[..position] + (chunk + rest);
      var step := ScanBlock(s, position, chunk, pending, skipping, rest);
      if step.found.Some? {
        if position > 0 {
          SuffixNewest(s, file[..position], chunk + rest, step.found.value);
        } else {
          assert file == chunk + rest;
        }
        return Found(step.found.value);
      }
      pending, skipping := step.pending, step.skipping;
    }
    if position > 0 || skipping {
      assert StoppedAt(s, file, readable, position);
      return Uncertain;
    }
    return Nothing;
  }

  lemma NeverStops(s: Scan, file: seq<Byte>, readable: nat -> bool, p: nat)
    requires s.block > 0 && |file| <= s.cap && NoLongLine(s, Split(file)) && forall q: nat :: q < |file| ==> readable(q)
    ensures !StoppedAt(s, file, readable, p)
  {
    if p <= |file| {
      assert 0 < p ==> NextBlock(s, |file|, p) < |file|;
    }
  }

  lemma NothingScanned(s: Scan)
    ensures Scanned(s, [], [], false) && Quiet(s, Split([])) && Quiet(s, Split([])[1..])
  {
  }

  /** Seconds since the last write after which a rollout is not looked into. */
  const LOOKBACK: real := 600.0

  /**
   `_recent_rollout_turn_state`; `file` is None when its status cannot be read. On a recent readable
   file within the cap and without a line over the limit the result is that of the line scan, for
   every block size.
   */
  method RecentTurnState(s: Scan, file: Option<seq<Byte>>, age: real, readable: nat -> bool) returns (state: State)
    requires s.block > 0
    ensures file.None? || age > LOOKBACK ==> state == Nothing
    ensures file.Some? && age <= LOOKBACK ==>
              var lines := Split(file.value);
              && (state.Found? ==> Newest(s, lines, state.event))
              && (state.Nothing? ==> Quiet(s, lines) && |file.value| <= s.cap)
              && (state.Uncertain? ==> exists p: nat :: StoppedAt(s, file.value, readable, p))
              && (|file.value| <= s.cap && NoLongLine(s, lines) && (forall p: nat :: p < |file.value| ==> readable(p))
                  ==> state == match LastEvent(s, lines) case Some(e) => Found(e) case None => Nothing)
  {
    if file.None? || RealMax(0.0, age) > LOOKBACK {
      return Nothing;
    }
    state := ScanFile(s, file.value, readable);
    hide EventOf, Quiet, Newest, LastEvent;
    if |file.value| <= s.cap && NoLongLine(s, Split(file.value)) && forall p: nat :: p < |file.value| ==> readable(p) {
      forall p: nat ensures !StoppedAt(s, file.value, readable, p) { NeverStops(s, file.value, readable, p); }
      ScanOutcome(s, file.value, state);
    }
  }

  /** The outcomes of the scan, against the line scan. */
  lemma ScanOutcome(s: Scan, file: seq<Byte>, state: State)
    requires NoLongLine(s, Split(file))
    requires state.Found? ==> Newest(s, Split(file), state.event)
    requires state.Nothing? ==> Quiet(s, Split(file))
    requires state.Uncertain? ==> |Split(file)[0]| > s.limit
    ensures state == match LastEvent(s, Split(file)) case Some(e) => Found(e) case None => Nothing
  {
    match state
    case Found(e) => NewestIsLast(s, Split(file), e);
    case Nothing => QuietHasNone(s, Split(file));
    case Uncertain => assert false;
  }
}

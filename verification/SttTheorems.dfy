/** What a reader of the recognizer's output can rely on, for the worker and for its test double. */
module SttTheorems {
  import opened Options
  import opened EnvText
  import opened SttWorker

  // ---------------------------------------------------------------- the reader

  predicate IsFinal(l: Line) { l.Done? || l.Error? }

  /** What the hub's reader makes of the lines of one request: the streamed texts, then the first final
      line, then the lines left. Ready lines are passed over; `None` when the output ends first. */
  datatype Job = Job(segments: seq<string>, final: Line, rest: seq<Line>)

  function ReadJob(lines: seq<Line>): Option<Job> {
    if lines == [] then None
    else if IsFinal(lines[0]) then Some(Job([], lines[0], lines[1..]))
    else
      var next := ReadJob(lines[1..]);
      if next.None? then None
      else if lines[0].Progress? && lines[0].text.Some? && lines[0].text.value != ""
      then Some(next.value.(segments := [lines[0].text.value] + next.value.segments))
      else next
  }

  function Texts(block: seq<Line>): seq<string> {
    if block == [] then []
    else
      (if block[0].Progress? && block[0].text.Some? && block[0].text.value != "" then [block[0].text.value] else [])
      + Texts(block[1..])
  }

  predicate NoFinal(block: seq<Line>) { forall i :: 0 <= i < |block| ==> !IsFinal(block[i]) }

  lemma {:induction false} ReadBlock(block: seq<Line>, final: Line, rest: seq<Line>)
    requires NoFinal(block) && IsFinal(final)
    ensures ReadJob(block + [final] + rest) == Some(Job(Texts(block), final, rest))
  {
    var lines := block + [final] + rest;
    if block == [] {
      assert lines[0] == final && lines[1..] == rest;
    } else {
      assert lines[0] == block[0] && lines[1..] == block[1..] + [final] + rest;
      ReadBlock(block[1..], final, rest);
      assert [] + Texts(block[1..]) == Texts(block[1..]);
    }
  }

  /** Reading one job per request, in order. */
  function ReadJobs(lines: seq<Line>, n: nat): Option<(seq<(seq<string>, Line)>, seq<Line>)>
    decreases n
  {
    if n == 0 then Some(([], lines))
    else
      var job := ReadJob(lines);
      if job.None? then None
      else
        var more := ReadJobs(job.value.rest, n - 1);
        if more.None? then None else Some(([(job.value.segments, job.value.final)] + more.value.0, more.value.1))
  }

  lemma {:induction false} ProgressNoFinal(parts: seq<string>, wanted: bool)
    ensures NoFinal(ProgressLines(parts, wanted))
    ensures forall i :: 0 <= i < |ProgressLines(parts, wanted)| ==> ProgressLines(parts, wanted)[i].Progress?
  {
    if parts == [] {
    } else {
      ProgressNoFinal(parts[1..], wanted);
    }
  }

  lemma ServeShape(m: Models, i: Input, h: Hearing, s: Setting)
    ensures var (held, streamed, final) := Serve(m, i, h, s);
      NoFinal(streamed) && IsFinal(final) && forall j :: 0 <= j < |streamed| ==> streamed[j].Progress?
  {
    ProgressNoFinal(Parts(h.segments, 0), i.Asked? && i.request.segments);
  }

  /** The models held when the k-th line is served. */
  function HeldAt(m: Models, inputs: seq<Input>, hears: seq<Hearing>, s: Setting, k: nat): Models
    requires k <= |inputs| == |hears|
    decreases k
  {
    if k == 0 then m else Serve(HeldAt(m, inputs, hears, s, k - 1), inputs[k - 1], hears[k - 1], s).0
  }

  /** What the reader should get for every line: the texts streamed for it, and its own final line. */
  function Jobs(m: Models, inputs: seq<Input>, hears: seq<Hearing>, s: Setting): seq<(seq<string>, Line)>
    requires |inputs| == |hears|
    decreases |inputs|
  {
    if inputs == [] then []
    else
      var (held, streamed, final) := Serve(m, inputs[0], hears[0], s);
      [(Texts(streamed), final)] + Jobs(held, inputs[1..], hears[1..], s)
  }

  lemma {:induction false} WorkReads(m: Models, inputs: seq<Input>, hears: seq<Hearing>, s: Setting)
    requires |inputs| == |hears|
    ensures ReadJobs(Work(m, inputs, hears, s), |inputs|) == Some((Jobs(m, inputs, hears, s), []))
    decreases |inputs|
  {
    if inputs == [] {
    } else {
      var (held, streamed, final) := Serve(m, inputs[0], hears[0], s);
      var rest := Work(held, inputs[1..], hears[1..], s);
      ServeShape(m, inputs[0], hears[0], s);
      ReadBlock(streamed, final, rest);
      WorkReads(held, inputs[1..], hears[1..], s);
    }
  }

  lemma {:induction false} JobAt(m: Models, inputs: seq<Input>, hears: seq<Hearing>, s: Setting, k: nat)
    requires k < |inputs| == |hears|
    ensures |Jobs(m, inputs, hears, s)| == |inputs|
    ensures var (held, streamed, final) := Serve(HeldAt(m, inputs, hears, s, k), inputs[k], hears[k], s);
      Jobs(m, inputs, hears, s)[k] == (Texts(streamed), final)
    decreases |inputs|
  {
    var held := Serve(m, inputs[0], hears[0], s).0;
    if |inputs| > 1 {
      JobAt(held, inputs[1..], hears[1..], s, if k == 0 then 0 else k - 1);
    } else {
      assert Jobs(held, inputs[1..], hears[1..], s) == [];
    }
    if k > 0 {
      HeldShift(m, inputs, hears, s, k - 1);
    }
  }

  lemma {:induction false} HeldShift(m: Models, inputs: seq<Input>, hears: seq<Hearing>, s: Setting, k: nat)
    requires k < |inputs| == |hears|
    ensures HeldAt(Serve(m, inputs[0], hears[0], s).0, inputs[1..], hears[1..], s, k)
      == HeldAt(m, inputs, hears, s, k + 1)
    decreases k
  {
    if k > 0 {
      HeldShift(m, inputs, hears, s, k - 1);
    } else {
      assert HeldAt(m, inputs, hears, s, 0) == m;
    }
  }

  lemma ReadyPassed(lines: seq<Line>, n: nat)
    requires n > 0
    ensures ReadJobs([Ready] + lines, n) == ReadJobs(lines, n)
  {
    assert ([Ready] + lines)[1..] == lines;
  }

  /** For every input and every recognizer: a reader that takes one job per request line gets exactly one
      for each, the k-th final line answering the k-th line, with the texts streamed for that line, and
      nothing is left over. */
  lemma OutputReads(inputs: seq<Input>, hears: seq<Hearing>, s: Setting)
    requires |inputs| == |hears|
    ensures inputs != [] ==>
      ReadJobs(Output(inputs, hears, s), |inputs|) == Some((Jobs(Preloaded(s), inputs, hears, s), []))
    ensures forall k :: 0 <= k < |inputs| ==>
      var (held, streamed, final) := Serve(HeldAt(Preloaded(s), inputs, hears, s, k), inputs[k], hears[k], s);
      |Jobs(Preloaded(s), inputs, hears, s)| == |inputs|
        && Jobs(Preloaded(s), inputs, hears, s)[k] == (Texts(streamed), final)
  {
    WorkReads(Preloaded(s), inputs, hears, s);
    if inputs != [] {
      ReadyPassed(Work(Preloaded(s), inputs, hears, s), |inputs|);
      assert [] + Work(Preloaded(s), inputs, hears, s) == Work(Preloaded(s), inputs, hears, s);
    }
    forall k | 0 <= k < |inputs|
      ensures var (held, streamed, final) := Serve(HeldAt(Preloaded(s), inputs, hears, s, k), inputs[k], hears[k], s);
        |Jobs(Preloaded(s), inputs, hears, s)| == |inputs|
          && Jobs(Preloaded(s), inputs, hears, s)[k] == (Texts(streamed), final)
    {
      JobAt(Preloaded(s), inputs, hears, s, k);
    }
  }

  /** Blocks written one after the other: progress, then a final line, each time. */
  function Written(blocks: seq<(seq<Line>, Line)>): seq<Line> {
    if blocks == [] then [] else blocks[0].0 + [blocks[0].1] + Written(blocks[1..])
  }

  predicate WellFormed(blocks: seq<(seq<Line>, Line)>) {
    forall i :: 0 <= i < |blocks| ==> NoFinal(blocks[i].0) && IsFinal(blocks[i].1)
  }

  lemma FirstFinal(a: seq<Line>, x: Line, r: seq<Line>, b: seq<Line>, y: Line, q: seq<Line>)
    requires NoFinal(a) && NoFinal(b) && IsFinal(x) && IsFinal(y) && a + [x] + r == b + [y] + q
    ensures a == b && x == y && r == q
  {
    var t := a + [x] + r;
    assert t[|a|] == x && t[|b|] == y;
    assert forall i :: 0 <= i < |a| ==> t[i] == a[i];
    assert forall i :: 0 <= i < |b| ==> t[i] == (b + [y] + q)[i] == b[i];
    assert |a| == |b|;
    assert t[..|a|] == a && t[..|b|] == b && t[|a| + 1..] == r && t[|b| + 1..] == q;
  }

  lemma WrittenNothing(blocks: seq<(seq<Line>, Line)>)
    ensures Written(blocks) == [] <==> blocks == []
  {
    if blocks != [] { assert Written(blocks)[|blocks[0].0|] == blocks[0].1; }
  }

  /** The split of an output into blocks is unique. */
  lemma {:induction false} SplitIsUnique(a: seq<(seq<Line>, Line)>, b: seq<(seq<Line>, Line)>)
    requires WellFormed(a) && WellFormed(b) && Written(a) == Written(b)
    ensures a == b
    decreases |a|
  {
    WrittenNothing(a);
    WrittenNothing(b);
    if a != [] && b != [] {
      FirstFinal(a[0].0, a[0].1, Written(a[1..]), b[0].0, b[0].1, Written(b[1..]));
      SplitIsUnique(a[1..], b[1..]);
      assert a == [a[0]] + a[1..] && b == [b[0]] + b[1..];
    }
  }

  // ---------------------------------------------------------------- transcripts

  /** A text that starts and ends with something visible. */
  predicate Solid(t: string) { t != "" && !IsSpace(t[0]) && !IsSpace(t[|t| - 1]) }

  predicate AllSolid(parts: seq<string>) { forall i :: 0 <= i < |parts| ==> Solid(parts[i]) }

  function Total(parts: seq<string>): nat { if parts == [] then 0 else |parts[0]| + Total(parts[1..]) }

  lemma {:induction false} PartsBounded(segments: seq<string>, count: nat)
    requires count <= MAX_COUNT
    ensures count + Total(Parts(segments, count)) <= MAX_COUNT
    ensures AllSolid(NonEmpty(Parts(segments, count)))
  {
    if segments != [] && count + |Stripped(segments[0])| <= MAX_COUNT {
      PartsBounded(segments[1..], count + |Stripped(segments[0])|);
      var rest := Parts(segments[1..], count + |Stripped(segments[0])|);
      assert Parts(segments, count)[1..] == rest;
    }
  }

  lemma {:induction false} SpacedSolid(parts: seq<string>)
    requires AllSolid(parts)
    ensures parts != [] ==> Solid(Spaced(parts)) && |Spaced(parts)| + 1 <= 2 * Total(parts)
    ensures parts == [] ==> Spaced(parts) == ""
  {
    if |parts| > 1 {
      SpacedSolid(parts[1..]);
    } else if |parts| == 1 {
      assert Total(parts[1..]) == 0;
    }
  }

  lemma {:induction false} NonEmptyTotal(parts: seq<string>)
    ensures Total(NonEmpty(parts)) == Total(parts)
  {
    if parts == [] {
    } else {
      NonEmptyTotal(parts[1..]);
      if parts[0] == "" {
        assert NonEmpty(parts) == NonEmpty(parts[1..]);
      } else {
        assert NonEmpty(parts)[1..] == NonEmpty(parts[1..]);
      }
    }
  }

  lemma {:induction false} TextsOfProgress(parts: seq<string>, wanted: bool)
    ensures Texts(ProgressLines(parts, wanted)) == if wanted then NonEmpty(parts) else []
  {
    if parts == [] {
    } else {
      TextsOfProgress(parts[1..], wanted);
      assert ProgressLines(parts, wanted)[1..] == ProgressLines(parts[1..], wanted);
    }
  }

  lemma StreamedTexts(q: Request, h: Hearing)
    ensures Texts(Streamed(q, h)) ==
      if Refusal(q, h).Some? || !q.segments then [] else NonEmpty(Parts(h.segments, 0))
  {
    TextsOfProgress(Parts(h.segments, 0), q.segments);
    var lines := ProgressLines(Parts(h.segments, 0), q.segments);
    assert ([Progress(None)] + lines)[1..] == lines;
  }

  /** A recognized transcript is its non-empty segment texts joined by single spaces. */
  lemma OutcomeIsJoined(q: Request, h: Hearing)
    requires Outcome(q, h).Got?
    ensures Refusal(q, h).None? && Outcome(q, h).line.Done?
    ensures var t := Outcome(q, h).line.transcript;
      t == Spaced(NonEmpty(Parts(h.segments, 0))) && Solid(t) && |t| <= MAX_TRANSCRIPT
  {
    PartsBounded(h.segments, 0);
    NonEmptyTotal(Parts(h.segments, 0));
    SpacedSolid(NonEmpty(Parts(h.segments, 0)));
  }

  /** What a served line answers with: a refusal, or what the recognizer made of it. */
  lemma ServeIsOutcome(m: Models, i: Input, h: Hearing, s: Setting)
    ensures var (held, streamed, final) := Serve(m, i, h, s);
      || (streamed == [] && final.Error?)
      || (i.Asked? && streamed == Streamed(i.request, h) && final == Reply(Outcome(i.request, h)))
  {
  }

  /** An accepted transcript is non-empty, already trimmed and at most 23999 characters; when segments
      were asked for, the streamed texts joined by single spaces are the transcript, and otherwise no
      progress line carries text. */
  lemma TranscriptIsStream(m: Models, i: Input, h: Hearing, s: Setting)
    ensures var (held, streamed, final) := Serve(m, i, h, s);
      && (final.Done? ==> i.Asked? && Solid(final.transcript) && |final.transcript| <= MAX_TRANSCRIPT)
      && (final.Done? && i.request.segments ==> Spaced(Texts(streamed)) == final.transcript)
      && (i.Asked? && !i.request.segments ==> Texts(streamed) == [])
  {
    ServeIsOutcome(m, i, h, s);
    if i.Asked? {
      StreamedTexts(i.request, h);
      if Outcome(i.request, h).Got? { OutcomeIsJoined(i.request, h); }
    }
  }

  function Ones(n: nat): seq<string> { if n == 0 then [] else ["x"] + Ones(n - 1) }

  lemma {:induction false} OnesFit(n: nat, count: nat)
    requires count + n <= MAX_COUNT
    ensures Parts(Ones(n), count) == Ones(n) && !TooLong(Ones(n), count) && NonEmpty(Ones(n)) == Ones(n)
    ensures AllSolid(Ones(n))
    ensures n > 0 ==> |Spaced(Ones(n))| == 2 * n - 1
  {
    if n == 0 {
    } else {
      assert Ones(n)[1..] == Ones(n - 1) && Stripped("x") == "x";
      OnesFit(n - 1, count + 1);
    }
  }

  /** The bound is reached: 12000 one-letter segments give a transcript of exactly 23999 characters. */
  lemma BoundIsReached(q: Request, h: Hearing)
    requires Refusal(q, h).None? && h.breaks.None? && h.segments == Ones(MAX_COUNT)
    ensures Outcome(q, h).Got? && |Outcome(q, h).line.transcript| == MAX_TRANSCRIPT
  {
    OnesFit(MAX_COUNT, 0);
    SpacedSolid(Ones(MAX_COUNT));
  }

  /** Whatever an exception says, an error line carries one of the published reasons. */
  lemma ErrorsArePublished(m: Models, i: Input, h: Hearing, s: Setting)
    ensures var final := Serve(m, i, h, s).2;
      final.Error? ==> final.reason in KNOWN_ERRORS || final.reason == UNAVAILABLE
  {
    assert "request_too_large" in KNOWN_ERRORS;
  }

  // ---------------------------------------------------------------- models

  /** Over any stretch of the run, a model once held is never dropped or loaded again, and the fallback
      is loaded only for a request of the last tier while one is named. */
  lemma {:induction false} ModelsStay(m: Models, inputs: seq<Input>, hears: seq<Hearing>, s: Setting, k: nat)
    requires k <= |inputs| == |hears|
    ensures var held := HeldAt(m, inputs, hears, s, k);
      && (m.primary ==> held.primary) && (m.fallback ==> held.fallback) && m.tries <= held.tries
      && (forall i :: |m.tries| <= i < |held.tries| ==> if held.tries[i].Primary? then !m.primary else !m.fallback)
      && (held.fallback && !m.fallback ==>
            exists j :: 0 <= j < k && inputs[j].Asked? && WantsFallback(inputs[j].request, s))
    decreases k
  {
    if k == 0 {
    } else {
      ModelsStay(m, inputs, hears, s, k - 1);
      var before := HeldAt(m, inputs, hears, s, k - 1);
      if before.fallback && !m.fallback {
        var j :| 0 <= j < k - 1 && inputs[j].Asked? && WantsFallback(inputs[j].request, s);
        assert 0 <= j < k;
      } else if HeldAt(m, inputs, hears, s, k).fallback && !before.fallback {
        assert inputs[k - 1].Asked? && WantsFallback(inputs[k - 1].request, s);
      }
    }
  }

  /** A load of this kind succeeded. */
  predicate Loaded(m: Models, s: Setting, kind: Kind, i: nat) { i < |m.tries| && m.tries[i] == kind && s.load(i).None? }

  ghost predicate Obtained(m: Models, s: Setting, kind: Kind) { exists i :: Loaded(m, s, kind, i) }

  /** A model is held exactly when a load of its kind succeeded, and that was the last try of that kind. */
  ghost predicate Tidy(m: Models, s: Setting) {
    && (m.primary <==> Obtained(m, s, Primary)) && (m.fallback <==> Obtained(m, s, Fallback))
    && forall kind, i: nat, j: nat :: Loaded(m, s, kind, i) && i < j < |m.tries| ==> m.tries[j] != kind
  }

  lemma TidyTry(m: Models, s: Setting, kind: Kind)
    requires Tidy(m, s) && !(if kind.Primary? then m.primary else m.fallback)
    ensures Tidy(Models(m.primary || (kind.Primary? && s.load(|m.tries|).None?),
                        m.fallback || (kind.Fallback? && s.load(|m.tries|).None?), m.tries + [kind]), s)
  {
    var loaded := s.load(|m.tries|).None?;
    var after :=
      Models(m.primary || (kind.Primary? && loaded), m.fallback || (kind.Fallback? && loaded), m.tries + [kind]);
    forall other: Kind, i: nat ensures Loaded(after, s, other, i) <==>
      Loaded(m, s, other, i) || (i == |m.tries| && other == kind && loaded)
    {
    }
    forall other: Kind ensures Obtained(after, s, other) <==> Obtained(m, s, other) || (other == kind && loaded) {
      assert Loaded(after, s, other, |m.tries|) <==> other == kind && loaded;
    }
    assert Obtained(m, s, kind) <==> if kind.Primary? then m.primary else m.fallback;
  }

  /** In every run each model is loaded at most once, and every other try to load it failed before that. */
  lemma {:induction false} LoadedOnce(inputs: seq<Input>, hears: seq<Hearing>, s: Setting, k: nat)
    requires k <= |inputs| == |hears|
    ensures Tidy(HeldAt(Preloaded(s), inputs, hears, s, k), s)
    decreases k
  {
    if k == 0 {
      TidyTry(Models(false, false, []), s, Primary);
      assert [] + [Primary] == [Primary];
    } else {
      LoadedOnce(inputs, hears, s, k - 1);
      var m, i := HeldAt(Preloaded(s), inputs, hears, s, k - 1), inputs[k - 1];
      if i.length <= MAX_LINE && i.Asked? && !i.request.tier.OddTier? {
        if WantsFallback(i.request, s) {
          if !m.fallback { TidyTry(m, s, Fallback); }
        } else if !m.primary {
          TidyTry(m, s, Primary);
        }
      }
    }
  }

  // ---------------------------------------------------------------- the test double

  /** An input line of the double: blank, not JSON, JSON that is no object, or a request, with whether its
      audio opens and how many segments it takes. */
  datatype Fake = Blank | Garbage | Fatal | Served(readable: bool, segments: nat)

  /** Its settings: whether it sends a ready line and whether every decode fails. */
  datatype Double = Double(ready: bool, fails: bool)

  function FakeProgress(n: nat): seq<Line> {
    if n == 0 then [] else FakeProgress(n - 1) + [Progress(Some("segment"))]
  }

  function FakeFinal(f: Fake, d: Double): Line {
    if f.Garbage? then Error("worker_protocol")
    else if f.Served? && !f.readable then Error("audio_unreadable")
    else if d.fails then Error("worker_compute_failed")
    else Done("canary", 0)
  }

  function ReadyLine(d: Double, sent: bool): seq<Line> { if d.ready && !sent then [Ready] else [] }

  /** What one line adds, given whether a ready line went out before. */
  function FakeTurn(f: Fake, d: Double, sent: bool): seq<Line> {
    match f
    case Blank => []
    case Fatal => ReadyLine(d, sent)
    case Garbage => [FakeFinal(f, d)]
    case Served(readable, n) => ReadyLine(d, sent) + (if readable then FakeProgress(n) else []) + [FakeFinal(f, d)]
  }

  /** The ready line is out once a line was JSON, if it is sent at all. */
  predicate SentAfter(f: Fake, d: Double, sent: bool) { sent || (d.ready && (f.Served? || f.Fatal?)) }

  /** A fatal line ends the process. */
  function FakeOutput(inputs: seq<Fake>, d: Double, sent: bool): seq<Line> {
    if inputs == [] then []
    else if inputs[0].Fatal? then ReadyLine(d, sent)
    else FakeTurn(inputs[0], d, sent) + FakeOutput(inputs[1..], d, SentAfter(inputs[0], d, sent))
  }

  /** The lines it answers: those that are not blank, up to the one that ends it. */
  function Answered(inputs: seq<Fake>): seq<Fake> {
    if inputs == [] || inputs[0].Fatal? then []
    else (if inputs[0].Blank? then [] else [inputs[0]]) + Answered(inputs[1..])
  }

  /** What the inputs from the `i`-th on add to the output so far. */
  ghost predicate Left(inputs: seq<Fake>, i: nat, d: Double, sent: bool, out: seq<Line>) {
    i <= |inputs| && out + FakeOutput(inputs[i..], d, sent) == FakeOutput(inputs, d, false)
  }

  lemma LeftNext(inputs: seq<Fake>, i: nat, d: Double, sent: bool, out: seq<Line>)
    requires i < |inputs| && Left(inputs, i, d, sent, out)
    ensures var f := inputs[i];
      if f.Fatal? then out + FakeTurn(f, d, sent) == FakeOutput(inputs, d, false)
      else Left(inputs, i + 1, d, SentAfter(f, d, sent), out + FakeTurn(f, d, sent))
  {
    var f := inputs[i];
    assert inputs[i..][0] == f && inputs[i..][1..] == inputs[i + 1..];
    if !f.Fatal? { Reassociate(out, FakeTurn(f, d, sent), FakeOutput(inputs[i + 1..], d, SentAfter(f, d, sent))); }
  }

  lemma Reassociate(a: seq<Line>, b: seq<Line>, c: seq<Line>)
    ensures a + (b + c) == (a + b) + c
  {
  }

  lemma LeftLast(inputs: seq<Fake>, d: Double, sent: bool, out: seq<Line>)
    requires Left(inputs, |inputs|, d, sent, out)
    ensures out == FakeOutput(inputs, d, false)
  {
    assert out + [] == out;
  }

  /** What the double writes for one line that is JSON. */
  method ServeDouble(f: Fake, d: Double, sent: bool) returns (lines: seq<Line>)
    requires f.Served? || f.Fatal?
    ensures lines == FakeTurn(f, d, sent)
  {
    lines := [];
    if d.ready && !sent { lines := [Ready]; }
    if f.Fatal? { return; }
    if !f.readable {
      lines := lines + [Error("audio_unreadable")];
      return;
    }
    ghost var before := lines;
    var n := 0;
    while n < f.segments
      invariant 0 <= n <= f.segments && lines == before + FakeProgress(n)
    {
      lines := lines + [Progress(Some("segment"))];
      n := n + 1;
    }
    if d.fails { lines := lines + [Error("worker_compute_failed")]; } else { lines := lines + [Done("canary", 0)]; }
  }

  /** The double's loop. */
  method RunDouble(inputs: seq<Fake>, d: Double) returns (out: seq<Line>)
    ensures out == FakeOutput(inputs, d, false)
  {
    out := [];
    var sent, i := false, 0;
    assert inputs[0..] == inputs;
    while i < |inputs|
      invariant 0 <= i <= |inputs| && Left(inputs, i, d, sent, out)
    {
      var f := inputs[i];
      LeftNext(inputs, i, d, sent, out);
      var lines := [];
      if f.Garbage? {
        lines := [Error("worker_protocol")];
      } else if !f.Blank? {
        lines := ServeDouble(f, d, sent);
      }
      out := out + lines;
      if f.Fatal? { return; }
      sent := SentAfter(f, d, sent);
      i := i + 1;
    }
    LeftLast(inputs, d, sent, out);
  }

  lemma {:induction false} FakeProgressNoFinal(n: nat)
    ensures NoFinal(FakeProgress(n)) && Ready !in FakeProgress(n)
  {
    if n == 0 {
    } else {
      FakeProgressNoFinal(n - 1);
    }
  }

  /** Everything a line adds before its final line. */
  function FakeBlock(f: Fake, d: Double, sent: bool): seq<Line> {
    if !f.Served? then [] else ReadyLine(d, sent) + (if f.readable then FakeProgress(f.segments) else [])
  }

  lemma FakeTurnShape(f: Fake, d: Double, sent: bool)
    requires f.Served? || f.Garbage?
    ensures FakeTurn(f, d, sent) == FakeBlock(f, d, sent) + [FakeFinal(f, d)]
    ensures NoFinal(FakeBlock(f, d, sent)) && IsFinal(FakeFinal(f, d))
  {
    if f.Served? { FakeProgressNoFinal(f.segments); }
  }

  /** The reading of an output whose every answered line gets its own final line, in order. */
  ghost predicate Answers(out: seq<Line>, answered: seq<Fake>, d: Double, left: seq<Line>) {
    var jobs := ReadJobs(out, |answered|);
    && jobs.Some? && jobs.value.1 == left && |jobs.value.0| == |answered|
    && forall k :: 0 <= k < |answered| ==> jobs.value.0[k].1 == FakeFinal(answered[k], d)
  }

  lemma AnswersNext(f: Fake, d: Double, sent: bool, rest: seq<Line>, answered: seq<Fake>, left: seq<Line>)
    requires (f.Served? || f.Garbage?) && Answers(rest, answered, d, left)
    ensures Answers(FakeTurn(f, d, sent) + rest, [f] + answered, d, left)
  {
    FakeTurnShape(f, d, sent);
    ReadBlock(FakeBlock(f, d, sent), FakeFinal(f, d), rest);
  }

  /** What no reader takes: the ready line of a double that dies of its first JSON line. */
  function Unread(inputs: seq<Fake>, d: Double, sent: bool): seq<Line> {
    if inputs == [] then []
    else if inputs[0].Fatal? then ReadyLine(d, sent)
    else Unread(inputs[1..], d, SentAfter(inputs[0], d, sent))
  }

  /** The same reader accepts the double: one job per answered line, in order, and nothing is left over
      but the ready line of a double that dies of its first JSON line. */
  lemma {:induction false} DoubleReads(inputs: seq<Fake>, d: Double, sent: bool)
    ensures Answers(FakeOutput(inputs, d, sent), Answered(inputs), d, Unread(inputs, d, sent))
  {
    if inputs != [] && !inputs[0].Fatal? {
      var next := SentAfter(inputs[0], d, sent);
      DoubleReads(inputs[1..], d, next);
      if inputs[0].Blank? {
        assert FakeOutput(inputs, d, sent) == FakeOutput(inputs[1..], d, next)
          && Answered(inputs) == Answered(inputs[1..]);
      } else {
        AnswersNext(inputs[0], d, sent, FakeOutput(inputs[1..], d, next), Answered(inputs[1..]),
                    Unread(inputs[1..], d, next));
      }
    }
  }

  /** Where a ready line may stand for a reader that expects it first, as the worker sends it. */
  predicate ReadyFirst(out: seq<Line>) { forall i :: 1 <= i < |out| ==> out[i] != Ready }

  /** The lines that are not blank, up to and with the fatal one. */
  function Heard(inputs: seq<Fake>): seq<Fake> {
    if inputs == [] then []
    else if inputs[0].Fatal? then [Fatal]
    else (if inputs[0].Blank? then [] else [inputs[0]]) + Heard(inputs[1..])
  }

  predicate AllGarbage(heard: seq<Fake>) { forall k :: 0 <= k < |heard| ==> heard[k].Garbage? }

  lemma {:induction false} NoReadyOnceSent(inputs: seq<Fake>, d: Double, sent: bool)
    requires sent || !d.ready
    ensures Ready !in FakeOutput(inputs, d, sent)
  {
    if inputs != [] && !inputs[0].Fatal? {
      NoReadyOnceSent(inputs[1..], d, SentAfter(inputs[0], d, sent));
      if inputs[0].Served? { FakeProgressNoFinal(inputs[0].segments); }
    }
  }

  lemma {:induction false} ReadySomewhere(inputs: seq<Fake>, d: Double)
    requires d.ready
    ensures Ready in FakeOutput(inputs, d, false) <==> !AllGarbage(Heard(inputs))
  {
    if inputs == [] {
    } else {
      var heard := Heard(inputs);
      if inputs[0].Fatal? || inputs[0].Served? {
        assert !heard[0].Garbage?;
        assert FakeOutput(inputs, d, false)[0] == Ready;
      } else {
        ReadySomewhere(inputs[1..], d);
        var rest := FakeOutput(inputs[1..], d, false);
        assert FakeOutput(inputs, d, false) == FakeTurn(inputs[0], d, false) + rest;
        if inputs[0].Blank? {
          assert heard == Heard(inputs[1..]) && [] + rest == rest;
        } else {
          assert heard[1..] == Heard(inputs[1..]) && heard[0].Garbage?;
          assert AllGarbage(heard) <==> AllGarbage(heard[1..]) by {
            assert forall k :: 1 <= k < |heard| ==> heard[k] == heard[1..][k - 1];
          }
        }
      }
    }
  }

  /** The double sends its ready line first exactly when it sends none, or the first line that is not
      blank is JSON. */
  lemma {:induction false} DoubleReadyFirst(inputs: seq<Fake>, d: Double)
    ensures ReadyFirst(FakeOutput(inputs, d, false)) <==>
            !d.ready || AllGarbage(Heard(inputs)) || !Heard(inputs)[0].Garbage?
    decreases |inputs|
  {
    var out := FakeOutput(inputs, d, false);
    if !d.ready {
      NoReadyOnceSent(inputs, d, false);
    } else if inputs != [] && !inputs[0].Fatal? {
      var rest := FakeOutput(inputs[1..], d, inputs[0].Served?);
      if inputs[0].Served? {
        NoReadyOnceSent(inputs[1..], d, true);
        FakeProgressNoFinal(inputs[0].segments);
        assert Heard(inputs)[0] == inputs[0];
      } else if inputs[0].Garbage? {
        ReadySomewhere(inputs, d);
        assert Heard(inputs)[0] == Garbage;
        assert out[0] != Ready;
      } else {
        assert out == rest && Heard(inputs) == Heard(inputs[1..]);
        DoubleReadyFirst(inputs[1..], d);
      }
    }
  }
}

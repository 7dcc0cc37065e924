/** The streaming recognizer worker: one request per input line, progress lines while decoding, one
    final line per request, over lazily loaded models. */
module SttWorker {
  import opened Options
  import opened EnvText

  const MAX_LINE := 16384
  const MAX_AUDIO := 20 * 1024 * 1024
  const MAX_COUNT := 12000
  const MAX_TRANSCRIPT := 23999
  const UNAVAILABLE := "local_compute_unavailable"

  const KNOWN_ERRORS: set<string> := {
    "WA_WHATSAPP_STT_MODELS_required", "faster_whisper_missing", "offline_model_unavailable",
    "fallback_model_unavailable", "request_too_large", "cross_language_translation_unsupported",
    "language_must_be_en_pt_auto", "audio_too_large", "transcript_too_long", "no_speech_detected"}

  datatype Tier = NoTier | IntTier(n: int) | RealTier(r: real) | OddTier

  /** A request object. An absent field is `None`; `segments` is whether it is exactly true. */
  datatype Request = Request(mode: Option<string>, language: Option<string>, hasInput: bool, tier: Tier, segments: bool)

  /** An input line: its length, and what it parses to, if anything. */
  datatype Input = NotJson(length: nat) | NotObject(length: nat) | Asked(length: nat, request: Request)

  /** What the recognizer does with one request: the audio's size if it can be read, an exception at the
      start, the segments it yields, and an exception after them. */
  datatype Hearing = Hearing(size: Option<nat>, refuses: Option<string>, segments: seq<string>, breaks: Option<string>)

  datatype Line = Ready | Progress(text: Option<string>) | Done(transcript: string, tier: nat) | Error(reason: string)

  /** A computed line or the text of the exception raised instead. */
  datatype Attempt = Got(line: Line) | Raised(text: string)

  // ---------------------------------------------------------------- specification: one recognition

  function Stripped(segment: string): string { Trim(segment, Spaces) }

  /** The segment texts accepted before the running count passes the limit. */
  function Parts(segments: seq<string>, count: nat): seq<string> {
    if segments == [] || count + |Stripped(segments[0])| > MAX_COUNT then []
    else [Stripped(segments[0])] + Parts(segments[1..], count + |Stripped(segments[0])|)
  }

  predicate TooLong(segments: seq<string>, count: nat) {
    segments != []
      && (count + |Stripped(segments[0])| > MAX_COUNT || TooLong(segments[1..], count + |Stripped(segments[0])|))
  }

  function NonEmpty(parts: seq<string>): seq<string> {
    if parts == [] then [] else (if parts[0] == "" then [] else [parts[0]]) + NonEmpty(parts[1..])
  }

  /** `" ".join(parts)`. */
  function Spaced(parts: seq<string>): string {
    if parts == [] then "" else if |parts| == 1 then parts[0] else parts[0] + " " + Spaced(parts[1..])
  }

  function Transcript(parts: seq<string>): string { Trim(Spaced(NonEmpty(parts)), Spaces) }

  function ProgressOf(part: string, wanted: bool): Line { Progress(if wanted && part != "" then Some(part) else None) }

  function ProgressLines(parts: seq<string>, wanted: bool): seq<Line> {
    if parts == [] then [] else [ProgressOf(parts[0], wanted)] + ProgressLines(parts[1..], wanted)
  }

  function TierOf(t: Tier): nat { if t.IntTier? && t.n >= 0 then t.n else 0 }

  /** The checks before anything is decoded. */
  function Refusal(q: Request, h: Hearing): Option<string> {
    if q.mode.Some? && q.mode != Some("transcribe") then Some("cross_language_translation_unsupported")
    else if q.language.Some? && q.language.value !in {"en", "pt", "auto"} then Some("language_must_be_en_pt_auto")
    else if !q.hasInput || h.size.None? then Some(UNAVAILABLE)
    else if h.size.value > MAX_AUDIO then Some("audio_too_large")
    else h.refuses
  }

  /** The progress lines of one recognition. */
  function Streamed(q: Request, h: Hearing): seq<Line> {
    if Refusal(q, h).Some? then [] else [Progress(None)] + ProgressLines(Parts(h.segments, 0), q.segments)
  }

  /** Its outcome. */
  function Outcome(q: Request, h: Hearing): Attempt {
    if Refusal(q, h).Some? then Raised(Refusal(q, h).value)
    else if TooLong(h.segments, 0) then Raised("transcript_too_long")
    else if h.breaks.Some? then Raised(h.breaks.value)
    else
      var t := Transcript(Parts(h.segments, 0));
      if t == "" then Raised("no_speech_detected") else Got(Done(t, TierOf(q.tier)))
  }

  // ---------------------------------------------------------------- specification: the worker

  datatype Kind = Primary | Fallback

  /** The models held so far, and of which kind each attempt to load one was. */
  datatype Models = Models(primary: bool, fallback: bool, tries: seq<Kind>)

  /** The environment: whether a fallback model is named, and what each load attempt raises. */
  datatype Setting = Setting(fallbackNamed: bool, load: nat -> Option<string>)

  predicate WantsFallback(q: Request, s: Setting) {
    s.fallbackNamed && ((q.tier.IntTier? && q.tier.n >= 2) || (q.tier.RealTier? && q.tier.r >= 2.0))
  }

  /** The model for a request, loaded now if it was not yet; the exception text when there is none. */
  function ForRequest(m: Models, q: Request, s: Setting): (Models, Option<string>) {
    if q.tier.OddTier? then (m, Some(UNAVAILABLE))
    else if WantsFallback(q, s) then
      if m.fallback then (m, None)
      else if s.load(|m.tries|).Some? then (m.(tries := m.tries + [Fallback]), Some("fallback_model_unavailable"))
      else (m.(fallback := true, tries := m.tries + [Fallback]), None)
    else if m.primary then (m, None)
    else if s.load(|m.tries|).Some? then (m.(tries := m.tries + [Primary]), s.load(|m.tries|))
    else (m.(primary := true, tries := m.tries + [Primary]), None)
  }

  function Published(text: string): string { if text in KNOWN_ERRORS then text else UNAVAILABLE }

  function Reply(a: Attempt): Line { if a.Got? then a.line else Error(Published(a.text)) }

  /** One turn of the worker loop: the models after it, the progress lines, the final line. */
  function Serve(m: Models, i: Input, h: Hearing, s: Setting): (Models, seq<Line>, Line) {
    if i.length > MAX_LINE then (m, [], Error("request_too_large"))
    else if !i.Asked? then (m, [], Error(UNAVAILABLE))
    else
      var (held, problem) := ForRequest(m, i.request, s);
      if problem.Some? then (held, [], Reply(Raised(problem.value)))
      else (held, Streamed(i.request, h), Reply(Outcome(i.request, h)))
  }

  /** The whole run after the preload. */
  function Work(m: Models, inputs: seq<Input>, hears: seq<Hearing>, s: Setting): seq<Line>
    requires |inputs| == |hears|
    decreases |inputs|
  {
    if inputs == [] then []
    else
      var (held, streamed, final) := Serve(m, inputs[0], hears[0], s);
      streamed + [final] + Work(held, inputs[1..], hears[1..], s)
  }

  function Preloaded(s: Setting): Models { Models(s.load(0).None?, false, [Primary]) }

  function Output(inputs: seq<Input>, hears: seq<Hearing>, s: Setting): seq<Line>
    requires |inputs| == |hears|
  {
    (if Preloaded(s).primary then [Ready] else []) + Work(Preloaded(s), inputs, hears, s)
  }

  // ---------------------------------------------------------------- the program

  class Worker {
    var primary: bool
    var fallback: bool
    var tries: seq<Kind>
    var out: seq<Line>
    const setting: Setting

    constructor (setting: Setting)
      ensures this.setting == setting && Held() == Models(false, false, []) && out == []
    {
      this.setting, this.primary, this.fallback, this.tries, this.out := setting, false, false, [], [];
    }

    function Held(): Models
      reads this
    {
      Models(primary, fallback, tries)
    }

    method Emit(line: Line)
      modifies this`out
      ensures out == old(out) + [line]
    {
      out := out + [line];
    }

    method Load(kind: Kind) returns (problem: Option<string>)
      modifies this`tries
      ensures tries == old(tries) + [kind] && problem == setting.load(|old(tries)|)
    {
      problem := setting.load(|tries|);
      tries := tries + [kind];
    }

    method Preload()
      modifies this`primary, this`tries, this`out
      ensures primary == (old(primary) || setting.load(|old(tries)|).None?) && tries == old(tries) + [Primary]
      ensures out == old(out) + if setting.load(|old(tries)|).None? then [Ready] else []
    {
      var problem := Load(Primary);
      if problem.None? {
        primary := true;
        Emit(Ready);
      }
    }

    method Choose(q: Request) returns (problem: Option<string>)
      modifies this`primary, this`fallback, this`tries
      ensures (Held(), problem) == ForRequest(old(Held()), q, setting)
    {
      if q.tier.OddTier? { return Some(UNAVAILABLE); }
      if WantsFallback(q, setting) {
        if !fallback {
          problem := Load(Fallback);
          if problem.Some? { return Some("fallback_model_unavailable"); }
          fallback := true;
        }
        return None;
      }
      if !primary {
        problem := Load(Primary);
        if problem.Some? { return; }
        primary := true;
      }
      problem := None;
    }

    /** The loop over the segments: each text is counted, kept and reported, until the count passes the
        limit. */
    method Decode(segments: seq<string>, wanted: bool) returns (parts: seq<string>, tooLong: bool)
      modifies this`out
      ensures parts == Parts(segments, 0) && tooLong == TooLong(segments, 0)
      ensures out == old(out) + ProgressLines(Parts(segments, 0), wanted)
    {
      var count: nat := 0;
      parts := [];
      var i := 0;
      while i < |segments|
        invariant 0 <= i <= |segments|
        invariant Pending(segments, i, count, parts)
        invariant out == old(out) + ProgressLines(parts, wanted)
      {
        PendingNext(segments, i, count, parts);
        var text := Stripped(segments[i]);
        count := count + |text|;
        if count > MAX_COUNT { return parts, true; }
        ProgressAppend(parts, text, wanted);
        parts := parts + [text];
        Emit(ProgressOf(text, wanted));
        i := i + 1;
      }
      PendingLast(segments, count, parts);
      tooLong := false;
    }

    method Recognize(q: Request, h: Hearing) returns (a: Attempt)
      modifies this`out
      ensures out == old(out) + Streamed(q, h) && a == Outcome(q, h)
    {
      var refusal := Refusal(q, h);
      if refusal.Some? { a := Raised(refusal.value); return; }
      Emit(Progress(None));
      var parts, tooLong := Decode(h.segments, q.segments);
      if tooLong { a := Raised("transcript_too_long"); return; }
      if h.breaks.Some? { a := Raised(h.breaks.value); return; }
      var transcript := Transcript(parts);
      a := if transcript == "" then Raised("no_speech_detected") else Got(Done(transcript, TierOf(q.tier)));
    }

    /** The body of the worker loop. */
    method Turn(i: Input, h: Hearing)
      modifies this`primary, this`fallback, this`tries, this`out
      ensures var (held, streamed, final) := Serve(old(Held()), i, h, setting);
        Held() == held && out == old(out) + streamed + [final]
    {
      if i.length > MAX_LINE { Emit(Error("request_too_large")); return; }
      if !i.Asked? { Emit(Error(UNAVAILABLE)); return; }
      var problem := Choose(i.request);
      if problem.Some? { Emit(Error(Published(problem.value))); return; }
      var a := Recognize(i.request, h);
      Emit(Reply(a));
    }

    /** The worker: preload, then one turn per input line. */
    method RunAll(inputs: seq<Input>, hears: seq<Hearing>)
      requires |inputs| == |hears| && Held() == Models(false, false, []) && out == []
      modifies this
      ensures out == Output(inputs, hears, setting)
    {
      Preload();
      assert [] + [Primary] == [Primary];
      var i := 0;
      assert inputs[0..] == inputs && hears[0..] == hears;
      while i < |inputs|
        invariant 0 <= i <= |inputs|
        invariant out + Work(Held(), inputs[i..], hears[i..], setting) == Output(inputs, hears, setting)
      {
        ghost var was, m := out, Held();
        Turn(inputs[i], hears[i]);
        WorkNext(was, m, inputs, hears, i, setting);
        i := i + 1;
      }
      assert out + [] == out;
    }
  }

  /** What the segments from the `i`-th on add to the texts already accepted. */
  ghost predicate Pending(segments: seq<string>, i: nat, count: nat, parts: seq<string>) {
    && i <= |segments|
    && parts + Parts(segments[i..], count) == Parts(segments, 0)
    && TooLong(segments[i..], count) == TooLong(segments, 0)
  }

  lemma PendingNext(segments: seq<string>, i: nat, count: nat, parts: seq<string>)
    requires i < |segments| && Pending(segments, i, count, parts)
    ensures var text := Stripped(segments[i]);
      if count + |text| > MAX_COUNT then parts == Parts(segments, 0) && TooLong(segments, 0)
      else Pending(segments, i + 1, count + |text|, parts + [text])
  {
    assert segments[i..][0] == segments[i] && segments[i..][1..] == segments[i + 1..];
    var text := Stripped(segments[i]);
    if count + |text| > MAX_COUNT {
      assert parts + [] == parts;
    } else {
      Regroup(parts, text, Parts(segments[i + 1..], count + |text|));
    }
  }

  lemma PendingLast(segments: seq<string>, count: nat, parts: seq<string>)
    requires Pending(segments, |segments|, count, parts)
    ensures parts == Parts(segments, 0) && !TooLong(segments, 0)
  {
    assert parts + [] == parts;
  }

  lemma Regroup<T>(a: seq<T>, b: T, c: seq<T>)
    ensures a + ([b] + c) == (a + [b]) + c
  {
  }

  lemma WorkNext(out: seq<Line>, m: Models, inputs: seq<Input>, hears: seq<Hearing>, i: nat, s: Setting)
    requires i < |inputs| == |hears|
    ensures var (held, streamed, final) := Serve(m, inputs[i], hears[i], s);
      out + Work(m, inputs[i..], hears[i..], s)
      == (out + streamed + [final]) + Work(held, inputs[i + 1..], hears[i + 1..], s)
  {
    assert inputs[i..][1..] == inputs[i + 1..] && hears[i..][1..] == hears[i + 1..];
    var (held, streamed, final) := Serve(m, inputs[i], hears[i], s);
    var rest := Work(held, inputs[i + 1..], hears[i + 1..], s);
    assert out + (streamed + [final] + rest) == (out + streamed + [final]) + rest;
  }

  lemma {:induction false} ProgressAppend(parts: seq<string>, part: string, wanted: bool)
    ensures ProgressLines(parts + [part], wanted) == ProgressLines(parts, wanted) + [ProgressOf(part, wanted)]
  {
    if parts == [] {
      assert parts + [part] == [part];
    } else {
      assert (parts + [part])[1..] == parts[1..] + [part];
      ProgressAppend(parts[1..], part, wanted);
    }
  }
}

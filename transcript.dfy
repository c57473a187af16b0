/**
 * The response loop of `run`: every text alternative of a recognised
 * event is written to the log file, flushed, and handed to the update
 * callback, in arrival order.
 */
module Transcript {

  /** One hypothesis of a recognition result; only its text is read. */
  datatype Alternative = Alternative(text: string)

  /**
   * A streaming response, by the tag of its `Event` field. A refinement
   * carries its alternatives in its normalized-text part; every other tag,
   * and a response with no event, is `Other`.
   */
  datatype Response =
    | Partial(alternatives: seq<Alternative>)
    | Final(alternatives: seq<Alternative>)
    | FinalRefinement(normalizedAlternatives: seq<Alternative>)
    | Other

  /** How the response stream ends: normally, or with an RPC error the loop re-raises. */
  datatype StreamEnd = Completed | Failed(code: int, details: string)

  /** One observable action of the loop, in the order they happen. */
  datatype Effect = Write(data: string) | Flush | Callback(text: string)

  /** The texts of a recognised event's alternatives, in order; none for any other event. */
  function Texts(response: Response): seq<string> {
    seq(|AlternativesOf(response)|, k requires 0 <= k < |AlternativesOf(response)| => AlternativesOf(response)[k].text)
  }

  /** The alternatives the loop reads from a response. */
  function AlternativesOf(response: Response): seq<Alternative> {
    match response
    case Partial(alts) => alts
    case Final(alts) => alts
    case FinalRefinement(alts) => alts
    case Other => []
  }

  /**
   * The three recognised tags read their alternatives alike, in order;
   * any other tag yields nothing, and an event yields nothing exactly when
   * it has another tag or no alternatives.
   */
  lemma TextsByTag(alts: seq<Alternative>, response: Response)
    ensures Texts(Partial(alts)) == Texts(Final(alts)) == Texts(FinalRefinement(alts))
    ensures |Texts(Partial(alts))| == |alts|
      && forall k :: 0 <= k < |alts| ==> Texts(Partial(alts))[k] == alts[k].text
    ensures Texts(Other) == []
    ensures Texts(response) == [] <==> response.Other? || AlternativesOf(response) == []
  {
  }

  /** The transcript lines of a response stream: its events' texts, concatenated. */
  function Lines(responses: seq<Response>): seq<string> {
    if |responses| == 0 then []
    else Lines(responses[..|responses| - 1]) + Texts(responses[|responses| - 1])
  }

  /** What the loop does for each line: write it with a newline, flush, then call back. */
  function EffectsOf(lines: seq<string>): seq<Effect> {
    if |lines| == 0 then []
    else EffectsOf(lines[..|lines| - 1]) + LineEffects(lines[|lines| - 1])
  }

  function LineEffects(line: string): seq<Effect> {
    [Write(line + "\n"), Flush, Callback(line)]
  }

  /** The data of the writes, in order: the strings passed to `log.write`. */
  function Written(effects: seq<Effect>): seq<string> {
    if |effects| == 0 then []
    else
      var last := effects[|effects| - 1];
      Written(effects[..|effects| - 1]) + (if last.Write? then [last.data] else [])
  }

  /** The arguments of the callback calls, in order. */
  function CallbackArgs(effects: seq<Effect>): seq<string> {
    if |effects| == 0 then []
    else
      var last := effects[|effects| - 1];
      CallbackArgs(effects[..|effects| - 1]) + (if last.Callback? then [last.text] else [])
  }

  /** Each line followed by a newline, as it is written. */
  function Terminated(lines: seq<string>): (r: seq<string>)
    ensures |r| == |lines| && forall k :: 0 <= k < |lines| ==> r[k] == lines[k] + "\n"
  {
    seq(|lines|, k requires 0 <= k < |lines| => lines[k] + "\n")
  }

  lemma {:induction false} LinesAppend(a: seq<Response>, b: seq<Response>)
    ensures Lines(a + b) == Lines(a) + Lines(b)
  {
    if |b| > 0 {
      var b' := b[..|b| - 1];
      assert (a + b)[..|a + b| - 1] == a + b';
      LinesAppend(a, b');
    } else {
      assert a + b == a;
    }
  }

  /** An event with no alternatives, or with another tag, adds no line. */
  lemma SilentEventEmitsNothing(before: seq<Response>, response: Response, after: seq<Response>)
    requires AlternativesOf(response) == []
    ensures Lines(before + [response] + after) == Lines(before + after)
  {
    LinesAppend(before + [response], after);
    LinesAppend(before, after);
    assert Lines(before + [response]) == Lines(before) + Texts(response);
  }

  /** `line` is the text of some alternative of some response in `responses`. */
  ghost predicate FromSomeAlternative(responses: seq<Response>, line: string) {
    exists i, j :: 0 <= i < |responses| && 0 <= j < |AlternativesOf(responses[i])|
      && line == AlternativesOf(responses[i])[j].text
  }

  /** Every line of the transcript is the text of an alternative that was received. */
  lemma {:induction false} LinesComeFromAlternatives(responses: seq<Response>)
    ensures forall k :: 0 <= k < |Lines(responses)| ==> FromSomeAlternative(responses, Lines(responses)[k])
  {
    if |responses| > 0 {
      var n := |responses| - 1;
      var front := responses[..n];
      LinesComeFromAlternatives(front);
      var lines := Lines(responses);
      assert lines == Lines(front) + Texts(responses[n]);
      forall k | 0 <= k < |lines| ensures FromSomeAlternative(responses, lines[k]) {
        if k < |Lines(front)| {
          assert FromSomeAlternative(front, Lines(front)[k]);
          var i, j :| 0 <= i < |front| && 0 <= j < |AlternativesOf(front[i])|
            && Lines(front)[k] == AlternativesOf(front[i])[j].text;
          assert front[i] == responses[i];
        } else {
          var j := k - |Lines(front)|;
          assert lines[k] == AlternativesOf(responses[n])[j].text;
        }
      }
    }
  }

  lemma OneLineEffects(line: string)
    ensures Written(LineEffects(line)) == [line + "\n"]
    ensures CallbackArgs(LineEffects(line)) == [line]
  {
    var le := LineEffects(line);
    var w: seq<Effect> := [Write(line + "\n")];
    var wf := w + [Flush];
    assert le[..2] == wf && wf[..1] == w && w[..0] == [];
    assert Written(w) == [line + "\n"] && CallbackArgs(w) == [];
    assert Written(wf) == [line + "\n"] && CallbackArgs(wf) == [];
  }

  lemma {:induction false} EffectsOfShape(lines: seq<string>)
    ensures |EffectsOf(lines)| == 3 * |lines|
    ensures forall k :: 0 <= k < |lines| ==>
      EffectsOf(lines)[3 * k..3 * k + 3] == LineEffects(lines[k])
  {
    if |lines| > 0 {
      var n := |lines| - 1;
      EffectsOfShape(lines[..n]);
      var e := EffectsOf(lines);
      assert e[..3 * n] == EffectsOf(lines[..n]);
      forall k | 0 <= k < |lines| ensures e[3 * k..3 * k + 3] == LineEffects(lines[k]) {
        if k < n {
          assert e[3 * k..3 * k + 3] == EffectsOf(lines[..n])[3 * k..3 * k + 3];
        }
      }
    }
  }

  /**
   * Every line is written (with its newline) and flushed before the
   * callback is called with it, and before anything is done for the next.
   */
  lemma WriteBeforeCallback(lines: seq<string>, k: nat)
    requires k < |lines|
    ensures |EffectsOf(lines)| == 3 * |lines|
    ensures EffectsOf(lines)[3 * k] == Write(lines[k] + "\n")
    ensures EffectsOf(lines)[3 * k + 1] == Flush
    ensures EffectsOf(lines)[3 * k + 2] == Callback(lines[k])
  {
    EffectsOfShape(lines);
    assert EffectsOf(lines)[3 * k..3 * k + 3] == LineEffects(lines[k]);
  }

  /** `log.write` receives the lines, each with its newline. */
  lemma {:induction false} WrittenIsTerminatedLines(lines: seq<string>)
    ensures Written(EffectsOf(lines)) == Terminated(lines)
  {
    if |lines| > 0 {
      var n := |lines| - 1;
      WrittenIsTerminatedLines(lines[..n]);
      WrittenAppend(EffectsOf(lines[..n]), LineEffects(lines[n]));
      OneLineEffects(lines[n]);
    }
  }

  /** The callback receives exactly the lines, in order. */
  lemma {:induction false} CallbackArgsAreLines(lines: seq<string>)
    ensures CallbackArgs(EffectsOf(lines)) == lines
  {
    if |lines| > 0 {
      var n := |lines| - 1;
      CallbackArgsAreLines(lines[..n]);
      CallbackArgsAppend(EffectsOf(lines[..n]), LineEffects(lines[n]));
      OneLineEffects(lines[n]);
      assert lines == lines[..n] + [lines[n]];
    }
  }

  lemma AppendAssoc<T>(a: seq<T>, b: seq<T>, c: seq<T>)
    ensures (a + b) + c == a + (b + c)
  {
  }

  lemma LinesStep(responses: seq<Response>, i: nat)
    requires i < |responses|
    ensures Lines(responses[..i + 1]) == Lines(responses[..i]) + Texts(responses[i])
  {
    assert responses[..i + 1][..i] == responses[..i];
  }

  lemma TerminatedAppend(a: seq<string>, b: seq<string>)
    ensures Terminated(a + b) == Terminated(a) + Terminated(b)
  {
  }

  lemma {:induction false} EffectsOfAppend(a: seq<string>, b: seq<string>)
    ensures EffectsOf(a + b) == EffectsOf(a) + EffectsOf(b)
  {
    if |b| > 0 {
      assert (a + b)[..|a + b| - 1] == a + b[..|b| - 1];
      EffectsOfAppend(a, b[..|b| - 1]);
    } else {
      assert a + b == a;
    }
  }

  lemma {:induction false} WrittenAppend(a: seq<Effect>, b: seq<Effect>)
    ensures Written(a + b) == Written(a) + Written(b)
  {
    if |b| > 0 {
      assert (a + b)[..|a + b| - 1] == a + b[..|b| - 1];
      WrittenAppend(a, b[..|b| - 1]);
    } else {
      assert a + b == a;
    }
  }

  lemma {:induction false} CallbackArgsAppend(a: seq<Effect>, b: seq<Effect>)
    ensures CallbackArgs(a + b) == CallbackArgs(a) + CallbackArgs(b)
  {
    if |b| > 0 {
      assert (a + b)[..|a + b| - 1] == a + b[..|b| - 1];
      CallbackArgsAppend(a, b[..|b| - 1]);
    } else {
      assert a + b == a;
    }
  }

  /**
   * The log file of a session and everything the response loop has done.
   * `log` is the strings written to it, in order; the file is opened for
   * writing, so it starts empty.
   */
  class TranscriptLog {
    var log: seq<string>
    var effects: seq<Effect>

    /** `log` is exactly the data of the writes among the effects. */
    ghost predicate Valid()
      reads this
    {
      log == Written(effects)
    }

    constructor ()
      ensures Valid() && log == [] && effects == []
    {
      log := [];
      effects := [];
    }

    /** Write one line to the file, flush it, then pass it to the callback. */
    method Emit(line: string)
      requires Valid()
      modifies this
      ensures Valid()
      ensures effects == old(effects) + LineEffects(line)
      ensures log == old(log) + [line + "\n"]
    {
      effects := effects + [Write(line + "\n")];
      log := log + [line + "\n"];
      effects := effects + [Flush];
      effects := effects + [Callback(line)];
      assert effects == old(effects) + LineEffects(line);
      WrittenAppend(old(effects), LineEffects(line));
      OneLineEffects(line);
    }

    /** `for alt in alternatives`: emit the texts of one event in order. */
    method EmitAll(texts: seq<string>)
      requires Valid()
      modifies this
      ensures Valid()
      ensures effects == old(effects) + EffectsOf(texts)
      ensures log == old(log) + Terminated(texts)
    {
      for j := 0 to |texts|
        invariant Valid()
        invariant effects == old(effects) + EffectsOf(texts[..j])
        invariant log == old(log) + Terminated(texts[..j])
      {
        Emit(texts[j]);
        assert texts[..j + 1][..j] == texts[..j];
      }
      assert texts[..|texts|] == texts;
    }

    /**
     * `for response in it`: handle every response in arrival order; when
     * the stream fails, what was written so far stays and the error is
     * passed on.
     */
    method HandleResponses(responses: seq<Response>, end: StreamEnd) returns (outcome: StreamEnd)
      requires Valid()
      modifies this
      ensures Valid()
      ensures effects == old(effects) + EffectsOf(Lines(responses))
      ensures log == old(log) + Terminated(Lines(responses))
      ensures outcome == end
    {
      for i := 0 to |responses|
        invariant Valid()
        invariant effects == old(effects) + EffectsOf(Lines(responses[..i]))
        invariant log == old(log) + Terminated(Lines(responses[..i]))
      {
        ghost var done := Lines(responses[..i]);
        var texts := Texts(responses[i]);
        EmitAll(texts);
        LinesStep(responses, i);
        EffectsOfAppend(done, texts);
        TerminatedAppend(done, texts);
        AppendAssoc(old(effects), EffectsOf(done), EffectsOf(texts));
        AppendAssoc(old(log), Terminated(done), Terminated(texts));
      }
      assert responses[..|responses|] == responses;
      outcome := end;
    }
  }
}

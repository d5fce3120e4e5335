/**
 * The body of a 200 response to a streamed chat completion, read line by line
 * (`_send_message_to_ai`, the `for line in response.iter_lines()` loop).
 *
 * Each line follows the `data:` framing of server-sent events (section 9.2 of
 * the WHATWG HTML standard). `json.loads` is not modelled: the loop is given a
 * `parse` function from the stripped payload text to an abstract `Payload`.
 */
module EventStream {
  import opened Wrappers
  import opened Strings

  /** One line of the response body. `Raises` stands for a line whose reading or
      UTF-8 decoding raised (a dropped connection, invalid bytes); the source's
      catch-all handlers then make the whole exchange return `None`. */
  datatype Line = Line(text: string) | Raises

  /** `choices[0]` of a chunk: `content` is `delta.content` when both keys are
      present, `finishReason` the `finish_reason` when present and not null. */
  datatype Choice = Choice(content: Option<string>, finishReason: Option<string>)

  /** What `json.loads` makes of a payload.
      - `Unparseable`: it raised `JSONDecodeError`.
      - `Malshaped`: it parsed, but to a value on which the body of the loop
        (the tests and lookups on the chunk, and the echo) raises, so that the
        catch-all handler returns `None`. Examples, not a complete list:
        a number, a boolean or `null` (the `in` tests raise); a string or an
        array for which `"choices" in chunk` or `"error" in chunk` holds (the
        lookup that follows raises); a `choices` that is `null`, a number or a
        boolean (`len` raises); a `choices` that is a non-empty object
        (`choices[0]` raises); a first choice that is `null`, or whose `delta` is a number
        (the `in` tests raise); a `delta` that is a string containing
        "content" (the subscript raises); a `delta.content` that is not a
        string; a fragment standard output cannot encode (the write raises).
      - `Object`: a JSON object; `choices` is empty when the key is missing, and
        `hasError` says whether the object has a top-level `error` key. Any
        other string or array passes both `in` tests as False and so behaves
        as `Object([], false)`. */
  datatype Payload = Unparseable | Malshaped | Object(choices: seq<Choice>, hasError: bool)

  /** What one line does to the loop. */
  datatype Step = Skip | Stop | Append(fragment: string) | Abort

  /** The loop ends at a line that stops it (`break`) or aborts it (`return None`). */
  predicate Ends(step: Step) {
    step.Stop? || step.Abort?
  }

  const DataPrefix: string := "data: "
  const DoneSentinel: string := "[DONE]"

  /** The payload of a data line: the text after the prefix, stripped. */
  function PayloadText(text: string): string
    requires StartsWith(text, DataPrefix)
  {
    Strip(text[|DataPrefix|..])
  }

  /** The effect of one line on the reassembly loop. */
  function Classify(line: Line, parse: string -> Payload): Step {
    match line
    case Raises => Abort
    case Line(text) =>
      if text == "" || !StartsWith(text, DataPrefix) then Skip
      else
        var payload := PayloadText(text);
        if payload == DoneSentinel then Stop
        else
          match parse(payload)
          case Unparseable => Skip
          case Malshaped => Abort
          case Object(choices, hasError) =>
            if |choices| > 0 then
              (match choices[0].content
               case Some(fragment) => Append(fragment)
               case None => Skip)  // a finish_reason chunk, or an empty delta
            else if hasError then Abort
            else Skip
  }

  /** The steps of a whole body, line by line. */
  function Decode(lines: seq<Line>, parse: string -> Payload): (steps: seq<Step>) {
    seq(|lines|, i requires 0 <= i < |lines| => Classify(lines[i], parse))
  }

  lemma DecodeAppend(a: seq<Line>, b: seq<Line>, parse: string -> Payload)
    ensures Decode(a + b, parse) == Decode(a, parse) + Decode(b, parse)
  {
  }

  /** The result of reading a stream: the reply (`None` for failure) and the
      text echoed to standard output along the way. */
  datatype Outcome = Outcome(reply: Option<string>, echoed: string)

  /** The reassembly loop as a fold from the left, with `acc` the reply
      accumulated (and echoed) so far. */
  function Fold(steps: seq<Step>, acc: string): (o: Outcome)
    ensures |acc| <= |o.echoed| && o.echoed[..|acc|] == acc
    ensures o.reply.Some? ==> o.reply.value == o.echoed
    decreases |steps|
  {
    if steps == [] then Outcome(Some(acc), acc)
    else
      match steps[0]
      case Skip => Fold(steps[1..], acc)
      case Stop => Outcome(Some(acc), acc)
      case Abort => Outcome(None, acc)
      case Append(fragment) => Fold(steps[1..], acc + fragment)
  }

  /** The index of the first step that ends the loop, or `|steps|` if none does. */
  function Terminal(steps: seq<Step>): (k: nat)
    ensures k <= |steps|
    ensures forall i :: 0 <= i < k ==> !Ends(steps[i])
    ensures k < |steps| ==> Ends(steps[k])
  {
    if steps == [] || Ends(steps[0]) then 0
    else 1 + Terminal(steps[1..])
  }

  /** The fragment a step appends, if any. */
  function FragmentOf(step: Step): string {
    if step.Append? then step.fragment else ""
  }

  /** The fragments of all steps, concatenated in order, whatever else is in between. */
  function Fragments(steps: seq<Step>): string {
    if steps == [] then "" else FragmentOf(steps[0]) + Fragments(steps[1..])
  }

  /** The loop ends by returning `None`. */
  predicate Aborted(steps: seq<Step>) {
    var k := Terminal(steps);
    k < |steps| && steps[k] == Abort
  }

  /** What reading a whole stream yields, stated without the loop: the echoed text
      is the in-order concatenation of the fragments before the first `[DONE]` or
      error line; the reply is that text unless an error line came first. */
  lemma {:induction false} FoldMeaning(steps: seq<Step>, acc: string)
    ensures var text := acc + Fragments(steps[..Terminal(steps)]);
            Fold(steps, acc) == Outcome(if Aborted(steps) then None else Some(text), text)
  {
    var k := Terminal(steps);
    if steps == [] || Ends(steps[0]) {
      assert steps[..k] == [];
      assert acc + "" == acc;
    } else {
      var rest := steps[1..];
      var f := FragmentOf(steps[0]);
      FoldMeaning(rest, acc + f);
      assert steps[..k][1..] == rest[..Terminal(rest)];
      assert Fragments(steps[..k]) == f + Fragments(rest[..Terminal(rest)]);
      assert acc + (f + Fragments(rest[..Terminal(rest)])) == (acc + f) + Fragments(rest[..Terminal(rest)]);
      assert steps[0].Skip? ==> acc + f == acc;
    }
  }

  /** Nothing after the first `Stop` matters, and a sequence that ends without one
      yields exactly what it would have yielded with it. */
  lemma {:induction false} StopCuts(before: seq<Step>, after: seq<Step>, acc: string)
    ensures Fold(before + [Stop] + after, acc) == Fold(before, acc)
  {
    if before == [] {
      assert before + [Stop] + after == [Stop] + after;
    } else {
      assert (before + [Stop] + after)[1..] == before[1..] + [Stop] + after;
      assert (before + [Stop] + after)[0] == before[0];
      match before[0]
      case Skip => StopCuts(before[1..], after, acc);
      case Append(fragment) => StopCuts(before[1..], after, acc + fragment);
      case Stop =>
      case Abort =>
    }
  }

  /** A `Skip` can be dropped without changing anything. */
  lemma {:induction false} SkipInvisible(before: seq<Step>, after: seq<Step>, acc: string)
    ensures Fold(before + [Skip] + after, acc) == Fold(before + after, acc)
  {
    if before == [] {
      assert before + [Skip] + after == [Skip] + after;
      assert ([Skip] + after)[1..] == after == before + after;
    } else {
      assert (before + [Skip] + after)[1..] == before[1..] + [Skip] + after;
      assert (before + after)[1..] == before[1..] + after;
      assert (before + [Skip] + after)[0] == (before + after)[0] == before[0];
      match before[0]
      case Skip => SkipInvisible(before[1..], after, acc);
      case Append(fragment) => SkipInvisible(before[1..], after, acc + fragment);
      case Stop =>
      case Abort =>
    }
  }

  /** An `Abort` reached before any `Stop` makes the reply `None`, though the
      fragments before it were already echoed. */
  lemma {:induction false} AbortDiscards(before: seq<Step>, after: seq<Step>, acc: string)
    requires forall i :: 0 <= i < |before| ==> !Ends(before[i])
    ensures Fold(before + [Abort] + after, acc) == Outcome(None, acc + Fragments(before))
  {
    if before == [] {
      assert before + [Abort] + after == [Abort] + after;
      assert acc + "" == acc;
    } else {
      var f := FragmentOf(before[0]);
      assert (before + [Abort] + after)[1..] == before[1..] + [Abort] + after;
      assert (before + [Abort] + after)[0] == before[0];
      assert !Ends(before[0]);
      AbortDiscards(before[1..], after, acc + f);
      assert (acc + f) + Fragments(before[1..]) == acc + (f + Fragments(before[1..]));
      assert before[0].Skip? ==> acc + f == acc;
    }
  }

  /** On the lines of a body: nothing after the first `[DONE]` line affects the
      outcome, and a body that ends without that line yields the same. */
  lemma DoneCutsStream(before: seq<Line>, done: Line, after: seq<Line>, parse: string -> Payload)
    requires Classify(done, parse) == Stop
    ensures Fold(Decode(before + [done] + after, parse), "") == Fold(Decode(before, parse), "")
  {
    DecodeAppend(before + [done], after, parse);
    DecodeAppend(before, [done], parse);
    assert Decode([done], parse) == [Stop];
    StopCuts(Decode(before, parse), Decode(after, parse), "");
  }

  /** On the lines of a body: a line the loop skips can be dropped. */
  lemma SkippedLineInvisible(before: seq<Line>, noise: Line, after: seq<Line>, parse: string -> Payload)
    requires Classify(noise, parse) == Skip
    ensures Fold(Decode(before + [noise] + after, parse), "") == Fold(Decode(before + after, parse), "")
  {
    DecodeAppend(before + [noise], after, parse);
    DecodeAppend(before, [noise], parse);
    DecodeAppend(before, after, parse);
    assert Decode([noise], parse) == [Skip];
    SkipInvisible(Decode(before, parse), Decode(after, parse), "");
  }

  /** On the lines of a body: an error line reached before any `[DONE]` makes the
      reply `None`, whatever was accumulated and echoed before it. */
  lemma ErrorDiscardsReply(before: seq<Line>, error: Line, after: seq<Line>, parse: string -> Payload)
    requires Classify(error, parse) == Abort
    requires forall i :: 0 <= i < |before| ==> !Ends(Classify(before[i], parse))
    ensures Fold(Decode(before + [error] + after, parse), "") == Outcome(None, Fragments(Decode(before, parse)))
  {
    DecodeAppend(before + [error], after, parse);
    DecodeAppend(before, [error], parse);
    assert Decode([error], parse) == [Abort];
    AbortDiscards(Decode(before, parse), Decode(after, parse), "");
    assert "" + Fragments(Decode(before, parse)) == Fragments(Decode(before, parse));
  }

  /** The lines the loop skips: blank lines, lines without the exact `data: `
      prefix, unparseable payloads, and chunks whose first choice carries no
      content, a `finish_reason` chunk among them. A first choice that carries
      content is appended whether or not it also has a `finish_reason`. */
  lemma NoiseIsSkipped(line: Line, parse: string -> Payload)
    ensures line == Line("") ==> Classify(line, parse) == Skip
    ensures line.Line? && !StartsWith(line.text, DataPrefix) ==> Classify(line, parse) == Skip
    ensures line.Line? && StartsWith(line.text, DataPrefix) && PayloadText(line.text) != DoneSentinel ==>
              var p := parse(PayloadText(line.text));
              (p == Unparseable || (p.Object? && |p.choices| > 0 && p.choices[0].content == None)) ==>
                Classify(line, parse) == Skip
    ensures line.Line? && StartsWith(line.text, DataPrefix) && PayloadText(line.text) != DoneSentinel ==>
              var p := parse(PayloadText(line.text));
              p.Object? && |p.choices| > 0 ==>
                (p.choices[0].finishReason.Some? && p.choices[0].content == None ==> Classify(line, parse) == Skip) &&
                (p.choices[0].content.Some? ==> Classify(line, parse) == Append(p.choices[0].content.value))
  {
  }

  /** A data line is an error exactly when its chunk has no choices and has an
      `error` key, or when it raises; a chunk with choices is never an error. */
  lemma ErrorChunks(line: Line, parse: string -> Payload)
    requires line.Line? && StartsWith(line.text, DataPrefix) && PayloadText(line.text) != DoneSentinel
    ensures var p := parse(PayloadText(line.text));
            Classify(line, parse) == Abort <==> p == Malshaped || (p.Object? && p.choices == [] && p.hasError)
  {
  }

  /** The line `data: [DONE]`, with any surrounding whitespace after the prefix, stops the loop. */
  lemma DoneLineStops(pre: string, post: string, parse: string -> Payload)
    requires AllSpace(pre) && AllSpace(post)
    ensures Classify(Line(DataPrefix + pre + DoneSentinel + post), parse) == Stop
  {
    var text := DataPrefix + pre + DoneSentinel + post;
    assert text[..|DataPrefix|] == DataPrefix;
    assert text[|DataPrefix|..] == pre + DoneSentinel + post;
    StripRemovesPadding(pre, DoneSentinel, post);
  }

  /** The reassembly loop of `_send_message_to_ai` for a 200 response: appends
      and echoes each fragment, stops at `[DONE]`, returns `None` on an error. */
  method ReadStream(lines: seq<Line>, parse: string -> Payload) returns (reply: Option<string>, echoed: string)
    ensures Outcome(reply, echoed) == Fold(Decode(lines, parse), "")
  {
    var full := "";
    echoed := "";
    var i := 0;
    while i < |lines|
      invariant 0 <= i <= |lines|
      invariant echoed == full
      invariant Fold(Decode(lines, parse), "") == Fold(Decode(lines[i..], parse), full)
    {
      match Classify(lines[i], parse) {
        case Skip =>
        case Stop =>
          break;
        case Abort =>
          return None, echoed;
        case Append(fragment) =>
          echoed := echoed + fragment;
          full := full + fragment;
      }
      assert Decode(lines[i..], parse)[1..] == Decode(lines[i + 1..], parse);
      i := i + 1;
    }
    reply := Some(full);
  }
}

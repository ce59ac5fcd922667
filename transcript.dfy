/**
  The transcript buffer's text (the value of the `transcriptionText`
  element) and how a successful transcription is added to it.
 */
module Transcript {
  import opened JsText

  /** The blank line placed between two transcriptions. */
  const Separator: string := "\n\n"

  /**
    The new buffer text after a transcription returned `result`: the
    trimmed result alone when the buffer is empty (an empty string is
    falsy), otherwise the old text, a blank line and the trimmed result.
   */
  function Append(current: string, result: string): string {
    if current != "" then current + Separator + Trim(result) else Trim(result)
  }

  /**
    The old text is kept as a prefix; an empty buffer becomes the trimmed
    result; otherwise the old text is followed by a blank line and the
    trimmed result, and those are all that is added.
   */
  lemma AppendShape(current: string, result: string)
    ensures var r := Append(current, result);
            && current <= r
            && (current == "" ==> r == Trim(result))
            && (current != "" ==> |r| == |current| + |Separator| + |Trim(result)|
                                  && r[|current|..|current| + |Separator|] == Separator
                                  && r[|current| + |Separator|..] == Trim(result))
  {
  }

  /** The buffer after a run of successful transcriptions, oldest first. */
  function AppendAll(current: string, results: seq<string>): string
    decreases |results|
  {
    if results == [] then current else AppendAll(Append(current, results[0]), results[1..])
  }

  /** Each result trimmed, in order. */
  function TrimAll(results: seq<string>): (r: seq<string>)
    ensures |r| == |results|
    ensures forall i :: 0 <= i < |r| ==> r[i] == Trim(results[i])
  {
    if results == [] then [] else [Trim(results[0])] + TrimAll(results[1..])
  }

  /** The parts joined by blank lines, as `parts.join("\n\n")` would. */
  function Join(parts: seq<string>): string {
    if |parts| == 0 then ""
    else if |parts| == 1 then parts[0]
    else parts[0] + Separator + Join(parts[1..])
  }

  /** One more transcription lands at the end of those before it. */
  lemma {:induction false} AppendAllSnoc(current: string, results: seq<string>, result: string)
    ensures AppendAll(current, results + [result]) == Append(AppendAll(current, results), result)
    decreases |results|
  {
    if results != [] {
      assert (results + [result])[1..] == results[1..] + [result];
      AppendAllSnoc(Append(current, results[0]), results[1..], result);
    }
  }

  /** Text already in the buffer is never lost or changed by later transcriptions. */
  lemma {:induction false} AppendAllPrefix(current: string, results: seq<string>)
    ensures current <= AppendAll(current, results)
    decreases |results|
  {
    if results != [] {
      AppendShape(current, results[0]);
      AppendAllPrefix(Append(current, results[0]), results[1..]);
    }
  }

  lemma JoinCons(a: string, b: string, rest: seq<string>)
    ensures Join([a + Separator + b] + rest) == a + Separator + Join([b] + rest)
  {
    if rest != [] {
      assert ([a + Separator + b] + rest)[1..] == rest;
      assert ([b] + rest)[1..] == rest;
    }
  }

  /**
    Starting from non-empty text, the buffer holds that text and every
    trimmed result, in order, each after a blank line.
   */
  lemma {:induction false} AppendAllJoin(current: string, results: seq<string>)
    requires current != ""
    ensures AppendAll(current, results) == Join([current] + TrimAll(results))
    decreases |results|
  {
    if results == [] {
      assert [current] + TrimAll(results) == [current];
    } else {
      var t, rest := Trim(results[0]), TrimAll(results[1..]);
      var head := current + Separator + t;
      assert Append(current, results[0]) == head;
      assert TrimAll(results) == [t] + rest;
      var parts := [current] + TrimAll(results);
      assert |parts| >= 2 && parts[0] == current && parts[1..] == [t] + rest;
      calc {
        AppendAll(current, results);
        AppendAll(head, results[1..]);
        { AppendAllJoin(head, results[1..]); }
        Join([head] + rest);
        { JoinCons(current, t, rest); }
        current + Separator + Join([t] + rest);
        Join(parts);
      }
    }
  }

  /** How many results at the front of `results` trim to nothing. */
  function LeadingBlank(results: seq<string>): (k: nat)
    ensures k <= |results|
    ensures forall i :: 0 <= i < k ==> Trim(results[i]) == ""
    ensures k < |results| ==> Trim(results[k]) != ""
    decreases |results|
  {
    if results == [] || Trim(results[0]) != "" then 0 else 1 + LeadingBlank(results[1..])
  }

  /**
    Starting from an empty buffer, the results that trim to nothing before
    the first non-blank one leave no trace (the buffer is still empty when
    they arrive); from there on every trimmed result is kept, joined by
    blank lines.
   */
  lemma {:induction false} AppendAllFromEmpty(results: seq<string>)
    ensures AppendAll("", results) == Join(TrimAll(results)[LeadingBlank(results)..])
    decreases |results|
  {
    if results == [] {
    } else if Trim(results[0]) == "" {
      assert Append("", results[0]) == "";
      AppendAllFromEmpty(results[1..]);
      assert TrimAll(results)[LeadingBlank(results)..]
          == TrimAll(results[1..])[LeadingBlank(results[1..])..];
    } else {
      FromEmptyJoin(results);
    }
  }

  /**
    Starting from an empty buffer, when the first result is non-blank the
    buffer holds all trimmed results joined by blank lines.
   */
  lemma FromEmptyJoin(results: seq<string>)
    requires results != [] && Trim(results[0]) != ""
    ensures AppendAll("", results) == Join(TrimAll(results))
  {
    AppendAllJoin(Trim(results[0]), results[1..]);
    assert TrimAll(results) == [Trim(results[0])] + TrimAll(results[1..]);
  }
}

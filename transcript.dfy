/** The streaming transcript merge of the recorder component: each message from
    the speech service is folded into the pair (transcript, streamingText), and a
    final fragment is handed to the `onTranscription` callback. Also the text the
    component offers to copy and the character count it shows. */
module Transcript {
  import opened Media
  import Text

  /** A socket message after `JSON.parse`: either it failed to parse, or it carries
      `channel.alternatives[0].transcript` (absent when any step of that path is
      missing) and the truthiness of `is_final`. */
  datatype Message = Unparsable | Parsed(alternative: Option<string>, isFinal: bool)

  /** The component's two pieces of text state. */
  datatype View = View(transcript: string, streamingText: string)

  /** The state after one message, and the argument of the `onTranscription` call it makes, if any. */
  datatype Step = Step(view: View, emitted: Option<string>)

  /** The text a message contributes: only a parsed message whose first alternative
      has a non-empty transcript (a truthy value) contributes. */
  function Fragment(m: Message): (r: Option<string>)
    ensures r.Some? <==> m.Parsed? && m.alternative.Some? && m.alternative.value != ""
    ensures r.Some? ==> r == m.alternative
  {
    if m.Parsed? && m.alternative.Some? && m.alternative.value != "" then m.alternative else None
  }

  /** The `socket.onmessage` handler: a final fragment is appended after a space and
      clears the partial text; a partial fragment replaces the partial text; anything
      else changes nothing. */
  function Merge(v: View, m: Message): (s: Step)
    ensures Fragment(m).None? ==> s == Step(v, None)
    ensures Fragment(m).Some? && m.isFinal ==>
      s.view == View(v.transcript + " " + Fragment(m).value, "") && s.emitted == Fragment(m)
    ensures Fragment(m).Some? && !m.isFinal ==>
      s.view == View(v.transcript, Fragment(m).value) && s.emitted.None?
  {
    match Fragment(m)
    case None => Step(v, None)
    case Some(t) =>
      if m.isFinal then Step(View(v.transcript + " " + t, ""), Some(t))
      else Step(View(v.transcript, t), None)
  }

  /** The state after a run of messages, and every `onTranscription` argument in order. */
  datatype Run = Run(view: View, emitted: seq<string>)

  function OptionToSeq(o: Option<string>): seq<string>
  {
    if o.Some? then [o.value] else []
  }

  /** Messages applied in arrival order, as React applies the queued state updates. */
  function MergeAll(v: View, ms: seq<Message>): Run
  {
    if ms == [] then Run(v, [])
    else
      var before := MergeAll(v, ms[..|ms| - 1]);
      var s := Merge(before.view, ms[|ms| - 1]);
      Run(s.view, before.emitted + OptionToSeq(s.emitted))
  }

  predicate IsFinalFragment(m: Message)
  {
    Fragment(m).Some? && m.isFinal
  }

  /** The texts of the final fragments among `ms`, in order. */
  function Finals(ms: seq<Message>): seq<string>
  {
    if ms == [] then []
    else (if IsFinalFragment(ms[0]) then [Fragment(ms[0]).value] else []) + Finals(ms[1..])
  }

  /** Each final text preceded by one space, concatenated. */
  function Spaced(ts: seq<string>): string
  {
    if ts == [] then "" else " " + ts[0] + Spaced(ts[1..])
  }

  /** The partial text left showing: that of the last message contributing anything,
      empty if that message was final, and `initial` if no message contributed. */
  function Pending(initial: string, ms: seq<Message>): string
  {
    if ms == [] then initial
    else match Fragment(ms[|ms| - 1])
      case None => Pending(initial, ms[..|ms| - 1])
      case Some(t) => if ms[|ms| - 1].isFinal then "" else t
  }

  lemma {:induction false} FinalsAppend(ms: seq<Message>, m: Message)
    ensures Finals(ms + [m]) == Finals(ms) + (if IsFinalFragment(m) then [Fragment(m).value] else [])
    decreases |ms|
  {
    if ms == [] {
      assert Finals([m][1..]) == [];
    } else {
      var head := if IsFinalFragment(ms[0]) then [Fragment(ms[0]).value] else [];
      assert (ms + [m])[0] == ms[0] && (ms + [m])[1..] == ms[1..] + [m];
      assert Finals(ms + [m]) == head + Finals(ms[1..] + [m]);
      FinalsAppend(ms[1..], m);
    }
  }

  lemma {:induction false} SpacedAppend(ts: seq<string>, t: string)
    ensures Spaced(ts + [t]) == Spaced(ts) + " " + t
    decreases |ts|
  {
    if ts == [] {
      assert Spaced([t][1..]) == "";
    } else {
      assert (ts + [t])[1..] == ts[1..] + [t];
      SpacedAppend(ts[1..], t);
    }
  }

  /** `onTranscription` is called once per final fragment, with its text, in arrival order. */
  lemma {:induction false} MergeAllEmitsFinals(v: View, ms: seq<Message>)
    ensures MergeAll(v, ms).emitted == Finals(ms)
    decreases |ms|
  {
    if ms != [] {
      var init, last := ms[..|ms| - 1], ms[|ms| - 1];
      assert ms == init + [last];
      MergeAllEmitsFinals(v, init);
      FinalsAppend(init, last);
    }
  }

  /** The committed transcript only grows, by exactly the final fragments, each after a space. */
  lemma {:induction false} MergeAllTranscript(v: View, ms: seq<Message>)
    ensures MergeAll(v, ms).view.transcript == v.transcript + Spaced(Finals(ms))
    decreases |ms|
  {
    if ms != [] {
      var init, last := ms[..|ms| - 1], ms[|ms| - 1];
      assert ms == init + [last];
      MergeAllTranscript(v, init);
      FinalsAppend(init, last);
      if IsFinalFragment(last) {
        SpacedAppend(Finals(init), Fragment(last).value);
      } else {
        assert Finals(ms) == Finals(init);
      }
    }
  }

  /** The partial text is replaced, never accumulated: it is the pending text of the last contributing message. */
  lemma {:induction false} MergeAllStreamingText(v: View, ms: seq<Message>)
    ensures MergeAll(v, ms).view.streamingText == Pending(v.streamingText, ms)
    decreases |ms|
  {
    if ms != [] {
      MergeAllStreamingText(v, ms[..|ms| - 1]);
    }
  }

  /** `Spaced` is a leading space followed by `join(' ')`. */
  lemma {:induction false} SpacedIsJoin(ts: seq<string>)
    requires ts != []
    ensures Spaced(ts) == " " + Text.Join(ts, " ")
    decreases |ts|
  {
    if |ts| == 1 {
      assert Spaced(ts[1..]) == "";
    } else {
      SpacedIsJoin(ts[1..]);
    }
  }

  /** After a start (both texts cleared), the transcript is empty until a final
      arrives, and from then on it is a space followed by the finals joined by spaces:
      the first final is preceded by a stray space. */
  lemma SessionTranscript(ms: seq<Message>)
    ensures Finals(ms) == [] ==> MergeAll(View("", ""), ms).view.transcript == ""
    ensures Finals(ms) != [] ==>
      MergeAll(View("", ""), ms).view.transcript == " " + Text.Join(Finals(ms), " ")
  {
    MergeAllTranscript(View("", ""), ms);
    if Finals(ms) != [] {
      SpacedIsJoin(Finals(ms));
    }
  }

  /** Any partials and ignored messages followed by one final: the final text is
      appended after a space, the partial text is empty, and the callback ran once. */
  lemma PartialsThenFinal(v: View, partials: seq<Message>, last: Message)
    requires forall i :: 0 <= i < |partials| ==> !IsFinalFragment(partials[i])
    requires IsFinalFragment(last)
    ensures MergeAll(v, partials + [last]).view == View(v.transcript + " " + Fragment(last).value, "")
    ensures MergeAll(v, partials + [last]).emitted == [Fragment(last).value]
  {
    var ms := partials + [last];
    assert ms[..|ms| - 1] == partials;
    var before := MergeAll(v, partials);
    var s := Merge(before.view, last);
    assert MergeAll(v, ms) == Run(s.view, before.emitted + OptionToSeq(s.emitted));
    NoFinals(partials);
    MergeAllEmitsFinals(v, partials);
    MergeAllTranscript(v, partials);
  }

  lemma {:induction false} NoFinals(ms: seq<Message>)
    requires forall i :: 0 <= i < |ms| ==> !IsFinalFragment(ms[i])
    ensures Finals(ms) == []
    decreases |ms|
  {
    if ms != [] {
      NoFinals(ms[1..]);
    }
  }

  /** `handleCopyText`: `transcript || streamingText`, written only when non-empty. */
  function CopyText(v: View): (r: Option<string>)
    ensures r.None? <==> v.transcript == "" && v.streamingText == ""
    ensures r.Some? ==> r.value != "" && (r.value == v.transcript || (v.transcript == "" && r.value == v.streamingText))
  {
    if v.transcript != "" then Some(v.transcript)
    else if v.streamingText != "" then Some(v.streamingText)
    else None
  }

  /** The character count shown beside the heading: absent while both texts are empty,
      otherwise the length of `(transcript + ' ' + streamingText).trim()`. */
  function CharCount(v: View): (r: Option<nat>)
    ensures r.None? <==> v.transcript == "" && v.streamingText == ""
    ensures r.Some? ==> r.value <= |v.transcript| + 1 + |v.streamingText|
  {
    if v.transcript != "" || v.streamingText != "" then
      Some(|Text.Trim(v.transcript + " " + v.streamingText)|)
    else None
  }

  /** The count is zero exactly when the shown texts hold only white space. */
  lemma CharCountZeroIff(v: View)
    requires v.transcript != "" || v.streamingText != ""
    ensures CharCount(v) == Some(0) <==> Text.AllSpace(v.transcript) && Text.AllSpace(v.streamingText)
  {
    var joined := v.transcript + " " + v.streamingText;
    Text.TrimEmptyIff(joined);
    if Text.AllSpace(joined) {
      forall i | 0 <= i < |v.transcript| ensures Text.IsSpace(v.transcript[i]) {
        assert v.transcript[i] == joined[i];
      }
      forall i | 0 <= i < |v.streamingText| ensures Text.IsSpace(v.streamingText[i]) {
        assert v.streamingText[i] == joined[|v.transcript| + 1 + i];
      }
    }
    if Text.AllSpace(v.transcript) && Text.AllSpace(v.streamingText) {
      forall i | 0 <= i < |joined| ensures Text.IsSpace(joined[i]) {
        if i < |v.transcript| {
          assert joined[i] == v.transcript[i];
        } else if i > |v.transcript| {
          assert joined[i] == v.streamingText[i - |v.transcript| - 1];
        }
      }
    }
  }

  /** While a final is being spoken over committed text, both texts are counted in
      full with the one space between them, when the transcript starts and the partial
      text ends with a non-space character. */
  lemma CharCountOfBoth(v: View)
    requires v.transcript != "" && v.streamingText != ""
    requires !Text.IsSpace(v.transcript[0]) && !Text.IsSpace(v.streamingText[|v.streamingText| - 1])
    ensures CharCount(v) == Some(|v.transcript| + 1 + |v.streamingText|)
  {
  }

  /** After a session's finals (a transcript of a stray leading space and then the
      committed text, with no partial text), the count leaves out the stray space and
      the joining space: it is the committed text's length. */
  lemma CharCountAfterSession(committed: string)
    requires committed != ""
    requires !Text.IsSpace(committed[0]) && !Text.IsSpace(committed[|committed| - 1])
    ensures CharCount(View(" " + committed, "")) == Some(|committed|)
  {
    var joined := " " + committed + " " + "";
    assert joined[1..|committed| + 1] == committed;
    Text.TrimInfix(joined, 1, |committed| + 1);
  }
}

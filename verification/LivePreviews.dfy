/** What live previews show (`applyPreview` of packages/client/src/projection.ts): which deliveries are taken, what each
    change makes of its channel, and all the text streamed so far when no delivery is lost. */
module LivePreviews {
  import opened Bindings
  import opened Projection

  // ----- changes -----

  /** One change keeps its channel up to the offset and goes on with the delta; a change beyond the end is refused. */
  lemma SpliceExactly(value: string, change: Change)
    ensures var next := Projection.Splice(value, change);
            && (next.Some? <==> change.offset <= |value|)
            && (next.Some? ==>
                  |next.value| == change.offset + |change.delta|
                    && next.value[..change.offset] == value[..change.offset]
                  && next.value[change.offset..] == change.delta)
  {
  }

  /** Where a channel ends after the changes: at the end of the last one that names it, else where it began. */
  function EndOf(changes: seq<Change>, channel: Channel, start: nat): nat {
    if changes == [] then start
    else
      var last := changes[|changes| - 1];
      if last.channel == channel then last.offset + |last.delta| else EndOf(changes[..|changes| - 1], channel, start)
  }

  function StartOf(channel: Channel, reasoning: nat, text: nat): nat {
    if channel == ReasoningChannel then reasoning else text
  }

  /** No change begins beyond the end of its channel at that point. */
  ghost predicate NoGap(changes: seq<Change>, reasoning: nat, text: nat) {
    forall i :: 0 <= i < |changes| ==> Reachable(changes, i, reasoning, text)
  }

  predicate Reachable(changes: seq<Change>, i: nat, reasoning: nat, text: nat)
    requires i < |changes|
  {
    changes[i].offset <= EndOf(changes[..i], changes[i].channel, StartOf(changes[i].channel, reasoning, text))
  }

  /** Changes go on from what earlier ones have shown. */
  lemma {:induction false} FoldAppend(reasoning: string, text: string, changes: seq<Change>, more: seq<Change>)
    ensures var shown := FoldChanges(reasoning, text, changes);
            FoldChanges(reasoning, text, changes + more)
            == if shown.None? then None else FoldChanges(shown.value.0, shown.value.1, more)
    decreases |changes|
  {
    if changes == [] {
      assert [] + more == more;
    } else {
      var first, rest := changes[0], changes[1..];
      assert (changes + more)[0] == first && (changes + more)[1..] == rest + more;
      var next := Projection.Splice(if first.channel == ReasoningChannel then reasoning else text, first);
      if next.Some? {
        if first.channel == ReasoningChannel { FoldAppend(next.value, text, rest, more); }
        else { FoldAppend(reasoning, next.value, rest, more); }
      }
    }
  }

  /** One change that quotes the stream, on channels that are prefixes of it. */
  lemma FoldOneExactly(stream: Stream, reasoning: string, text: string, change: Change)
    requires reasoning <= stream.reasoning && text <= stream.text && Quotes(stream, change)
    ensures var shown := FoldChanges(reasoning, text, [change]);
            var end := change.offset + |change.delta|;
            && (shown.Some? <==> change.offset <= |if change.channel == ReasoningChannel then reasoning else text|)
            && (shown.Some? ==>
                  shown.value == if change.channel == ReasoningChannel then (stream.reasoning[..end], text)
                                 else (reasoning, stream.text[..end]))
  {
    var value := if change.channel == ReasoningChannel then reasoning else text;
    var source := if change.channel == ReasoningChannel then stream.reasoning else stream.text;
    SpliceExactly(value, change);
    assert [change][0] == change && [change][1..] == [];
    var next := Projection.Splice(value, change);
    if next.Some? {
      QuotedEnd(source, value, change, next.value);
      assert FoldChanges(if change.channel == ReasoningChannel then next.value else reasoning,
                         if change.channel == ReasoningChannel then text else next.value, []).Some?;
    }
    hide Projection.Splice;
  }

  lemma QuotedEnd(source: string, value: string, change: Change, next: string)
    requires value <= source && change.offset <= |value| && change.offset + |change.delta| <= |source|
    requires source[change.offset..change.offset + |change.delta|] == change.delta
    requires next == value[..change.offset] + change.delta
    ensures next == source[..change.offset + |change.delta|]
  {
  }

  /** What is shown, exactly: of changes that quote the stream, each channel ends up as the stream's up to the end
      of its last change, and as it was if no change names it; it is refused if and only if some change begins
      beyond the end of its channel at that point. */
  lemma {:induction false} FoldExactly(stream: Stream, reasoning: string, text: string, changes: seq<Change>)
    requires reasoning <= stream.reasoning && text <= stream.text
    requires forall i :: 0 <= i < |changes| ==> Quotes(stream, changes[i])
    ensures EndOf(changes, ReasoningChannel, |reasoning|) <= |stream.reasoning|
    ensures EndOf(changes, TextChannel, |text|) <= |stream.text|
    ensures var shown := FoldChanges(reasoning, text, changes);
            && (shown.Some? <==> NoGap(changes, |reasoning|, |text|))
            && (shown.Some? ==>
                  shown.value == (stream.reasoning[..EndOf(changes, ReasoningChannel, |reasoning|)],
                                  stream.text[..EndOf(changes, TextChannel, |text|)]))
  {
    if changes == [] {
      assert stream.reasoning[..|reasoning|] == reasoning && stream.text[..|text|] == text;
    } else {
      hide FoldChanges, Quotes, EndOf, NoGap;
      var past, last := changes[..|changes| - 1], changes[|changes| - 1];
      assert past + [last] == changes;
      assert forall i :: 0 <= i < |past| ==> past[i] == changes[i];
      FoldExactly(stream, reasoning, text, past);
      FoldAppend(reasoning, text, past, [last]);
      GapSnoc(past, last, |reasoning|, |text|);
      EndSnoc(past, last, |reasoning|, |text|);
      QuoteEnds(stream, last);
      var shown := FoldChanges(reasoning, text, past);
      if shown.Some? { FoldOneExactly(stream, shown.value.0, shown.value.1, last); }
    }
  }

  lemma EndSnoc(past: seq<Change>, last: Change, reasoning: nat, text: nat)
    ensures var end := last.offset + |last.delta|;
            && EndOf(past + [last], ReasoningChannel, reasoning)
               == (if last.channel == ReasoningChannel then end else EndOf(past, ReasoningChannel, reasoning))
            && EndOf(past + [last], TextChannel, text)
               == (if last.channel == TextChannel then end else EndOf(past, TextChannel, text))
  {
    assert (past + [last])[..|past|] == past;
  }

  lemma QuoteEnds(stream: Stream, change: Change)
    requires Quotes(stream, change)
    ensures change.offset + |change.delta|
         <= |if change.channel == ReasoningChannel then stream.reasoning else stream.text|
  {
  }

  lemma GapSnoc(past: seq<Change>, last: Change, reasoning: nat, text: nat)
    ensures NoGap(past + [last], reasoning, text) <==>
              NoGap(past, reasoning, text)
              && last.offset <= EndOf(past, last.channel, StartOf(last.channel, reasoning, text))
  {
    var all := past + [last];
    assert all[..|past|] == past;
    assert forall i :: 0 <= i < |past| ==> all[i] == past[i] && all[..i] == past[..i];
    assert forall i :: 0 <= i < |past| ==> Reachable(all, i, reasoning, text) == Reachable(past, i, reasoning, text);
    assert Reachable(all, |past|, reasoning, text)
        <==> last.offset <= EndOf(past, last.channel, StartOf(last.channel, reasoning, text));
    hide EndOf, Reachable;
  }

  // ----- deliveries -----

  /** `body` follows what the Run has shown: by its fence, a later attempt or generation, or the same model attempt;
      and by the preview on the screen, the same model attempt, with a later sequence if nothing else is later. */
  predicate Follows(state: State, runId: string, attemptFence: int, body: Body)
    requires body.ModelPreview?
  {
    && (runId in state.fences ==>
          var fence := state.fences[runId];
          || Older(fence.attemptFence, fence.generation, attemptFence, body.generation)
          || fence == Fence(attemptFence, body.generation, body.modelCallId, body.modelAttemptId))
    && (runId in state.previews ==>
          var shown := state.previews[runId];
          && shown.modelCallId == body.modelCallId && shown.modelAttemptId == body.modelAttemptId
          && (Older(shown.attemptFence, shown.generation, attemptFence, body.generation)
              || (shown.attemptFence == attemptFence && shown.generation == body.generation
                  && shown.sequence < body.sequence)))
  }

  function ShownText(state: State, runId: string): (string, string) {
    if runId in state.previews then (state.previews[runId].reasoning, state.previews[runId].text) else ("", "")
  }

  /** Deliveries, exactly: one is applied if and only if it is for this Session and its own Run, follows what was
      shown, and its changes leave no gap; it then shows the changed text, stands at its fence, and touches no other
      Run. One that does not follow is ignored. */
  lemma DeliveryExactly(state: State, sessionId: string, runId: string, attemptFence: int, body: Body)
    requires Fenced(state) && body.ModelPreview?
    ensures var result := Apply(state, PreviewDelivery(sessionId, runId, attemptFence, body));
            var (reasoning, text) := ShownText(state, runId);
            var changed := FoldChanges(reasoning, text, body.changes);
            var mine := sessionId == state.sessionId && runId == body.runId;
            && (result.Applied? <==> mine && Follows(state, runId, attemptFence, body) && changed.Some?)
            && (result.Ignored? <==> mine && !Follows(state, runId, attemptFence, body))
            && (result.Applied? ==>
                  var preview := Preview(runId, attemptFence, body.modelCallId, body.modelAttemptId, body.attempt,
                                         body.generation, body.sequence, changed.value.0, changed.value.1,
                                         state.committedCursor);
                  result.state == state.(previews := state.previews[runId := preview],
                                         fences := state.fences[runId := FenceOf(preview)]))
            && (!result.Applied? ==> result.state == state)
  {
    hide FoldChanges;
  }

  /** Resets, exactly: one is applied if and only if it is for this Session and its own Run, and no later attempt or
      generation was shown; it removes the preview of that Run and keeps its fence. */
  lemma ResetExactly(state: State, sessionId: string, runId: string, attemptFence: int, body: Body)
    requires Fenced(state) && body.PreviewReset?
    ensures var result := Apply(state, PreviewDelivery(sessionId, runId, attemptFence, body));
            var mine := sessionId == state.sessionId && runId == body.runId;
            var late := runId in state.fences && Older(attemptFence, body.generation, state.fences[runId].attemptFence,
                                                       state.fences[runId].generation);
            && (result.Applied? <==> mine && !late) && (result.Ignored? <==> mine && late)
            && result.state == if mine && !late then state.(previews := state.previews - {runId}) else state
  {
  }

  // ----- a stream without loss -----

  /** One model attempt of a Run as the server streams it. */
  datatype Source = Source(sessionId: string, runId: string, attemptFence: int, modelCallId: string,
                           modelAttemptId: string, attempt: int, generation: int)

  datatype Delivery = Delivery(sequence: int, changes: seq<Change>)

  function EventOf(source: Source, delivery: Delivery): Event {
    PreviewDelivery(source.sessionId, source.runId, source.attemptFence,
                    ModelPreview(source.runId, source.modelCallId, source.modelAttemptId, source.attempt,
                                 source.generation, delivery.sequence, delivery.changes))
  }

  function Events(source: Source, deliveries: seq<Delivery>): seq<Event> {
    seq(|deliveries|, i requires 0 <= i < |deliveries| => EventOf(source, deliveries[i]))
  }

  function AllChanges(deliveries: seq<Delivery>): seq<Change> {
    if deliveries == [] then []
    else AllChanges(deliveries[..|deliveries| - 1]) + deliveries[|deliveries| - 1].changes
  }

  /** The Run shows nothing, and what it has shown before was of an earlier attempt or generation. */
  predicate Fresh(state: State, source: Source) {
    && state.sessionId == source.sessionId && source.runId !in state.previews
    && (source.runId in state.fences ==>
          Older(state.fences[source.runId].attemptFence, state.fences[source.runId].generation,
                source.attemptFence, source.generation))
  }

  /** The preview after these deliveries of the stream. */
  function Streamed(state: State, source: Source, stream: Stream, deliveries: seq<Delivery>): Preview
    requires deliveries != []
  {
    var changes := AllChanges(deliveries);
    Preview(source.runId, source.attemptFence, source.modelCallId, source.modelAttemptId, source.attempt,
            source.generation, deliveries[|deliveries| - 1].sequence,
            UpTo(stream.reasoning, EndOf(changes, ReasoningChannel, 0)),
            UpTo(stream.text, EndOf(changes, TextChannel, 0)), state.committedCursor)
  }

  function UpTo(text: string, end: nat): string { if end <= |text| then text[..end] else text }

  ghost predicate InSequence(deliveries: seq<Delivery>) {
    forall i, j :: 0 <= i < j < |deliveries| ==> deliveries[i].sequence < deliveries[j].sequence
  }

  ghost predicate AllQuote(stream: Stream, changes: seq<Change>) {
    forall i :: 0 <= i < |changes| ==> Quotes(stream, changes[i])
  }

  lemma EventsSnoc(state: State, source: Source, past: seq<Delivery>, last: Delivery)
    ensures Run(state, Events(source, past + [last]))
            == Apply(Run(state, Events(source, past)), EventOf(source, last)).state
    ensures Run(state, Events(source, [])) == state
  {
    hide Apply, EventOf;
    var events := Events(source, past + [last]);
    assert events[..|past|] == Events(source, past) && events[|past|] == EventOf(source, last);
    assert Events(source, []) == [];
  }

  lemma ChangesSnoc(past: seq<Delivery>, last: Delivery)
    ensures AllChanges(past + [last]) == AllChanges(past) + last.changes && AllChanges([]) == []
  {
    assert (past + [last])[..|past|] == past;
  }

  lemma PartQuotes(stream: Stream, changes: seq<Change>, more: seq<Change>)
    requires AllQuote(stream, changes + more) && NoGap(changes + more, 0, 0)
    ensures AllQuote(stream, changes) && NoGap(changes, 0, 0)
  {
    var all := changes + more;
    assert forall i :: 0 <= i < |changes| ==> all[i] == changes[i] && all[..i] == changes[..i];
    forall i | 0 <= i < |changes| ensures Reachable(changes, i, 0, 0) { assert Reachable(all, i, 0, 0); }
    hide Quotes, EndOf;
  }

  lemma SequenceSnoc(past: seq<Delivery>, last: Delivery)
    requires InSequence(past + [last])
    ensures InSequence(past)
    ensures past != [] ==> past[|past| - 1].sequence < last.sequence
  {
    var all := past + [last];
    assert forall i :: 0 <= i < |past| ==> all[i] == past[i];
    assert all[|past|] == last;
  }

  /** What all the changes make of empty channels. */
  lemma ShownSoFar(stream: Stream, changes: seq<Change>)
    requires AllQuote(stream, changes) && NoGap(changes, 0, 0)
    ensures FoldChanges("", "", changes)
         == Some((UpTo(stream.reasoning, EndOf(changes, ReasoningChannel, 0)),
                  UpTo(stream.text, EndOf(changes, TextChannel, 0))))
  {
    hide FoldChanges, EndOf, Quotes, NoGap;
    FoldExactly(stream, "", "", changes);
  }

  /** The state in which the Run shows this preview at its fence. */
  function Showing(state: State, preview: Preview): State {
    state.(previews := state.previews[preview.runId := preview],
           fences := state.fences[preview.runId := FenceOf(preview)])
  }

  lemma FirstIsShown(state: State, source: Source, stream: Stream, last: Delivery)
    requires Fenced(state) && Fresh(state, source) && AllQuote(stream, last.changes) && NoGap(last.changes, 0, 0)
    requires AllChanges([last]) == last.changes
    ensures Apply(state, EventOf(source, last)).state == Showing(state, Streamed(state, source, stream, [last]))
  {
    hide Apply, FoldChanges, EndOf, AllQuote, NoGap, AllChanges, Fenced;
    ShownSoFar(stream, last.changes);
    DeliveryExactly(state, source.sessionId, source.runId, source.attemptFence, EventOf(source, last).body);
  }

  lemma ShowAgain(state: State, first: Preview, next: Preview)
    requires first.runId == next.runId
    ensures Showing(Showing(state, first), next) == Showing(state, next)
    ensures Fenced(state) ==> Fenced(Showing(state, first))
  {
    hide FenceOf;
  }

  lemma TakesNext(state: State, source: Source, delivery: Delivery, text: (string, string))
    requires Fenced(state) && state.sessionId == source.sessionId && source.runId in state.previews
    requires var shown := state.previews[source.runId];
             && shown.attemptFence == source.attemptFence && shown.generation == source.generation
             && shown.modelCallId == source.modelCallId && shown.modelAttemptId == source.modelAttemptId
             && shown.sequence < delivery.sequence
             && FoldChanges(shown.reasoning, shown.text, delivery.changes) == Some(text)
    ensures Apply(state, EventOf(source, delivery)).state
         == Showing(state, Preview(source.runId, source.attemptFence, source.modelCallId, source.modelAttemptId,
                                   source.attempt, source.generation, delivery.sequence, text.0, text.1,
                                   state.committedCursor))
  {
    assert source.runId in state.fences && state.fences[source.runId] == FenceOf(state.previews[source.runId]);
    hide Apply, FoldChanges, Fenced;
    DeliveryExactly(state, source.sessionId, source.runId, source.attemptFence, EventOf(source, delivery).body);
  }

  lemma NextIsShown(state: State, source: Source, stream: Stream, past: seq<Delivery>, last: Delivery)
    requires Fenced(state) && state.sessionId == source.sessionId && past != []
    requires past[|past| - 1].sequence < last.sequence
    requires AllChanges(past + [last]) == AllChanges(past) + last.changes
    requires AllQuote(stream, AllChanges(past + [last])) && NoGap(AllChanges(past + [last]), 0, 0)
    ensures Apply(Showing(state, Streamed(state, source, stream, past)), EventOf(source, last)).state
         == Showing(state, Streamed(state, source, stream, past + [last]))
  {
    hide Apply, FoldChanges, EndOf, AllQuote, NoGap, AllChanges, Fenced, UpTo, EventOf;
    var shown, next := Streamed(state, source, stream, past), Streamed(state, source, stream, past + [last]);
    PartQuotes(stream, AllChanges(past), last.changes);
    ShownSoFar(stream, AllChanges(past));
    ShownSoFar(stream, AllChanges(past + [last]));
    FoldAppend("", "", AllChanges(past), last.changes);
    ShowAgain(state, shown, next);
    TakesNext(Showing(state, shown), source, last, (next.reasoning, next.text));
    assert (past + [last])[|past|] == last;
  }

  /** Streaming, exactly: of deliveries in sequence that quote the stream and leave no gap, every one is applied,
      and the Run shows all that has been streamed so far. */
  lemma {:induction false} StreamIsShown(state: State, source: Source, stream: Stream, deliveries: seq<Delivery>)
    requires Fenced(state) && Fresh(state, source) && deliveries != [] && InSequence(deliveries)
    requires AllQuote(stream, AllChanges(deliveries)) && NoGap(AllChanges(deliveries), 0, 0)
    ensures Run(state, Events(source, deliveries)) == Showing(state, Streamed(state, source, stream, deliveries))
  {
    var past, last := deliveries[..|deliveries| - 1], deliveries[|deliveries| - 1];
    assert past + [last] == deliveries;
    assert state.sessionId == source.sessionId;
    hide *;
    EventsSnoc(state, source, past, last);
    ChangesSnoc(past, last);
    if past == [] {
      assert [] + last.changes == last.changes;
      FirstIsShown(state, source, stream, last);
    } else {
      SequenceSnoc(past, last);
      PartQuotes(stream, AllChanges(past), last.changes);
      StreamIsShown(state, source, stream, past);
      NextIsShown(state, source, stream, past, last);
    }
  }
}

/** What the state machine of module Session guarantees, poll by poll and
    over whole runs. */
module SessionProperties {
  import opened Values
  import opened Naming
  import opened Session

  /** The write operations among some effects. */
  function Writes(es: seq<Effect>): seq<Effect>
    decreases |es|
  {
    if es == [] then [] else (if es[0].Write? then [es[0]] else []) + Writes(es[1..])
  }

  lemma EffectsOfTwo(e1: Effect, e2: Effect)
    ensures Writes([e1, e2]) == (if e1.Write? then [e1] else []) + (if e2.Write? then [e2] else [])
    ensures Samples([e1, e2]) ==
      (if e1.Write? && SamplePrefix <= e1.name then [e1.content] else []) +
      (if e2.Write? && SamplePrefix <= e2.name then [e2.content] else [])
  {
    assert [e1, e2] == [e1] + [e2];
    EffectsOfOne(e1);
    EffectsOfOne(e2);
    WritesAppend([e1], [e2]);
    SamplesAppend([e1], [e2]);
  }

  lemma EffectsOfOne(e: Effect)
    ensures Writes([e]) == (if e.Write? then [e] else [])
    ensures Samples([e]) == (if e.Write? && SamplePrefix <= e.name then [e.content] else [])
  {
    assert [e][1..] == [];
  }

  // ----- Perform: the file system as a map from path to content -----

  /** Writing to a path replaces whatever it held: of two writes to the same
      path only the second survives, and writing the same content twice
      leaves one artifact equal to it. */
  lemma RewriteReplaces(s: State, d: string, n: string, c1: string, c2: string)
    ensures Perform(Perform(s, Write(d, n, c1)), Write(d, n, c2)) == Perform(s, Write(d, n, c2))
    ensures Perform(Perform(s, Write(d, n, c1)), Write(d, n, c1)).files[ArtifactPath(d, n)] == c1
  {
  }

  /** Operations that write elsewhere leave a path's file as it was. */
  lemma {:induction false} PerformAllElsewhere(s: State, es: seq<Effect>, p: string)
    requires forall i :: 0 <= i < |es| && es[i].Write? ==> Path(es[i]) != p
    ensures p in PerformAll(s, es).files <==> p in s.files
    ensures p in s.files ==> PerformAll(s, es).files[p] == s.files[p]
    decreases |es|
  {
    if es != [] {
      PerformAllElsewhere(Perform(s, es[0]), es[1..], p);
    }
  }

  // ----- Idle: trackGameState -----

  /** An idle poll writes nothing and changes only the phase: a failed poll
      ends the chain, "InProgress" moves on to the deck check, and any other
      game state keeps the tracker idle. */
  lemma IdlePollClassifies(s: State, o: Observation)
    requires Inv(s) && s.phase == Idle
    ensures var t := Poll(s, o);
      t.effects == [] && t.next == s.(phase := t.next.phase) &&
      (o.board.Failure? ==> t.next.phase == Halted) &&
      (o.board.Got? ==>
        (t.next.phase == AwaitingDeck <==> o.board.value.gameState == "InProgress") &&
        (t.next.phase == Idle <==> o.board.value.gameState != "InProgress"))
  {
  }

  // ----- AwaitingDeck: trackGame -----

  /** A session is opened exactly when the deck has a code and a card map
      that does not serialise to "{}". Opening creates the folder named
      after the clock, writes the deck to `deck` in it and changes nothing
      else; in particular `previousCardPositions` survives. Without an active
      deck nothing at all changes and the deck is polled again. */
  lemma SessionOpensIffActiveDeck(s: State, o: Observation)
    requires Inv(s) && s.phase == AwaitingDeck && o.deck.Got?
    ensures var t := Poll(s, o); var d := o.deck.value;
      (t.next.phase == InMatch <==> d.code.Some? && d.cards != Some("{}")) &&
      (t.next.phase != InMatch ==> t == Transition(s, []))
    ensures var t := Poll(s, o); var d := o.deck.value; var f := SessionFolder(o.clock);
      t.next.phase == InMatch ==>
        t.next.directory == Some(f) &&
        t.next.files == s.files[ArtifactPath(f, DeckName) := d.text] &&
        t.next.folders == s.folders + {f} &&
        t.next.previousCardPositions == s.previousCardPositions &&
        Writes(t.effects) == [Write(f, DeckName, d.text)]
  {
    var t := Poll(s, o);
    var d := o.deck.value;
    if IsValidDeck(d) {
      var f := SessionFolder(o.clock);
      var e1, e2 := MakeDir(f), Write(f, DeckName, d.text);
      PerformTwo(s.(phase := InMatch, directory := Some(f)), e1, e2);
      EffectsOfTwo(e1, e2);
    }
  }

  /** A failed fetch ends the polling chain without writing anything: the
      board poll of an idle or in-match step, or the deck fetch. */
  lemma FailedPollHalts(s: State, o: Observation)
    requires Inv(s)
    requires ((s.phase == Idle || s.phase == InMatch) && o.board.Failure?)
          || (s.phase == AwaitingDeck && o.deck.Failure?)
    ensures Poll(s, o) == Transition(s.(phase := Halted), [])
  {
  }

  /** Once halted, nothing ever happens again. */
  lemma {:induction false} HaltedIsFinal(s: State, obs: seq<Observation>)
    requires Inv(s) && s.phase == Halted
    ensures Run(s, obs) == Transition(s, [])
    decreases |obs|
  {
    if obs != [] {
      HaltedIsFinal(Poll(s, obs[0]).next, obs[1..]);
    }
  }

  /** An invalid deck, polled any number of times, never opens a session and
      writes nothing: the tracker keeps polling for a deck. */
  lemma {:induction false} InvalidDeckForever(s: State, obs: seq<Observation>)
    requires Inv(s) && s.phase == AwaitingDeck
    requires forall i :: 0 <= i < |obs| ==> obs[i].deck.Got? && !IsValidDeck(obs[i].deck.value)
    ensures Run(s, obs) == Transition(s, [])
    decreases |obs|
  {
    if obs != [] {
      InvalidDeckForever(Poll(s, obs[0]).next, obs[1..]);
    }
  }

  // ----- InMatch: storeData -----

  /** In a match poll that sees the game in progress, a board sample is
      written exactly when it is defined and differs from
      `previousCardPositions`; it goes to `Card Positions/<time>` under the
      session folder and becomes the new `previousCardPositions`. Otherwise
      no file and not `previousCardPositions` changes. Either way the sample
      folder exists afterwards and the session goes on. */
  lemma SampleWrittenIffChanged(s: State, o: Observation)
    requires Inv(s) && s.phase == InMatch && InProgressPoll(o)
    ensures var t := Poll(s, o); var dir := s.directory.value;
      var written := o.sample.Got? && o.sample.value != s.previousCardPositions;
      t.next.phase == InMatch && t.next.directory == s.directory &&
      t.next.folders == s.folders + {ArtifactPath(dir, SamplesFolder)} &&
      (written ==>
        Samples(t.effects) == [o.sample.value] &&
        Writes(t.effects) == [Write(dir, SampleName(o.clock), o.sample.value)] &&
        t.next.files == s.files[ArtifactPath(dir, SampleName(o.clock)) := o.sample.value] &&
        t.next.previousCardPositions == o.sample.value) &&
      (!written ==>
        Samples(t.effects) == [] && Writes(t.effects) == [] &&
        t.next.files == s.files &&
        t.next.previousCardPositions == s.previousCardPositions)
  {
    var dir := s.directory.value;
    var mk := MakeDir(ArtifactPath(dir, SamplesFolder));
    ArtifactNamesDistinct(o.clock);
    if o.sample.Got? && o.sample.value != s.previousCardPositions {
      var w := Write(dir, SampleName(o.clock), o.sample.value);
      assert [mk] + [w] == [mk, w];
      PerformTwo(s.(previousCardPositions := o.sample.value), mk, w);
      EffectsOfTwo(mk, w);
    } else {
      PerformOne(s, mk);
      EffectsOfOne(mk);
    }
  }

  /** A board sample never replaces the session's deck or game result. */
  lemma SampleKeepsDeckAndResult(s: State, o: Observation, name: string)
    requires Inv(s) && s.phase == InMatch && InProgressPoll(o)
    requires name == DeckName || name == ResultName
    ensures var t := Poll(s, o); var p := ArtifactPath(s.directory.value, name);
      (p in t.next.files <==> p in s.files) && (p in s.files ==> t.next.files[p] == s.files[p])
  {
    var t := Poll(s, o);
    var dir := s.directory.value;
    ArtifactNamesDistinct(o.clock);
    ArtifactPathInjective(dir, name, SampleName(o.clock));
    SampleWrittenIffChanged(s, o);
  }

  /** When a match poll sees the game no longer in progress, exactly one
      file is written, `Game Result` under the session folder, and the
      tracker goes back to idle polling; a failed result fetch writes
      nothing and ends the chain. */
  lemma MatchEndsWithResult(s: State, o: Observation)
    requires Inv(s) && s.phase == InMatch
    requires o.board.Got? && !IsInProgress(o.board.value)
    ensures var t := Poll(s, o); var dir := s.directory.value;
      (o.result.Got? ==>
        t.next.phase == Idle &&
        Writes(t.effects) == t.effects == [Write(dir, ResultName, o.result.value)] &&
        t.next.files == s.files[ArtifactPath(dir, ResultName) := o.result.value] &&
        t.next.directory == s.directory && t.next.folders == s.folders &&
        t.next.previousCardPositions == s.previousCardPositions) &&
      (o.result.Failure? ==> t == Transition(s.(phase := Halted), []))
  {
    if o.result.Got? {
      var w := Write(s.directory.value, ResultName, o.result.value);
      PerformOne(s.(phase := Idle), w);
      EffectsOfOne(w);
    }
  }

  // ----- Sessions stay apart -----

  /** Every file a poll writes lies in the session folder the tracker holds
      after the poll. */
  lemma PollWritesUnderDirectory(s: State, o: Observation)
    requires Inv(s)
    ensures var t := Poll(s, o);
      forall i :: 0 <= i < |t.effects| && t.effects[i].Write? ==>
        t.next.directory == Some(t.effects[i].directory)
  {
  }

  /** A poll never touches the files of any other session folder: what an
      earlier session recorded survives every later poll. */
  lemma OtherSessionsUntouched(s: State, o: Observation, f: string, name: string)
    requires Inv(s) && IsSessionFolder(f)
    requires Poll(s, o).next.directory != Some(f)
    ensures var t := Poll(s, o); var p := ArtifactPath(f, name);
      (p in t.next.files <==> p in s.files) && (p in s.files ==> t.next.files[p] == s.files[p])
  {
    var t := Poll(s, o);
    var p := ArtifactPath(f, name);
    PollWritesUnderDirectory(s, o);
    forall i | 0 <= i < |t.effects| && t.effects[i].Write?
      ensures Path(t.effects[i]) != p
    {
      var e := t.effects[i];
      assert Inv(t.next);
      SessionArtifactsDisjoint(e.directory, f, e.name, name);
    }
    PerformEffectsOnly(s, o);
    PerformAllElsewhere(s.(phase := t.next.phase, directory := t.next.directory,
      previousCardPositions := t.next.previousCardPositions), t.effects, p);
  }

  /** A poll changes the files and folders only through the operations it
      reports. */
  lemma PerformEffectsOnly(s: State, o: Observation)
    requires Inv(s)
    ensures var t := Poll(s, o);
      t.next == PerformAll(s.(phase := t.next.phase, directory := t.next.directory,
        previousCardPositions := t.next.previousCardPositions), t.effects)
  {
  }

  // ----- Runs and duplicate suppression -----

  lemma {:induction false} SamplesAppend(a: seq<Effect>, b: seq<Effect>)
    ensures Samples(a + b) == Samples(a) + Samples(b)
    decreases |a|
  {
    if a == [] {
      assert a + b == b;
    } else {
      assert (a + b)[0] == a[0];
      assert (a + b)[1..] == a[1..] + b;
      SamplesAppend(a[1..], b);
    }
  }

  /** No payload `Dedup` keeps equals the one kept before it. */
  lemma {:induction false} DedupNoRepeats(last: string, xs: seq<string>)
    ensures var r := Dedup(last, xs);
      (|r| > 0 ==> r[0] != last) && forall i :: 0 <= i < |r| - 1 ==> r[i] != r[i + 1]
    decreases |xs|
  {
    if xs != [] {
      if xs[0] == last {
        DedupNoRepeats(last, xs[1..]);
      } else {
        DedupNoRepeats(xs[0], xs[1..]);
      }
    }
  }

  /** `Dedup` loses no value but the repeated one and invents none. */
  lemma {:induction false} DedupKeepsValues(last: string, xs: seq<string>)
    ensures forall x :: x in xs ==> x in Dedup(last, xs) || x == last
    ensures forall x :: x in Dedup(last, xs) ==> x in xs
    decreases |xs|
  {
    if xs != [] {
      if xs[0] == last {
        DedupKeepsValues(last, xs[1..]);
      } else {
        DedupKeepsValues(xs[0], xs[1..]);
      }
    }
  }

  /** Suppressing duplicates a second time changes nothing. */
  lemma {:induction false} DedupIdempotent(last: string, xs: seq<string>)
    ensures Dedup(last, Dedup(last, xs)) == Dedup(last, xs)
    decreases |xs|
  {
    if xs != [] {
      if xs[0] == last {
        DedupIdempotent(last, xs[1..]);
      } else {
        DedupIdempotent(xs[0], xs[1..]);
      }
    }
  }

  /** Throughout a match that stays in progress, the board samples written
      are exactly the defined samples with every repeat of the last stored
      one dropped, in order; `previousCardPositions` ends as the last stored
      sample, and the session folder stays the same. */
  lemma {:induction false} MatchRunDedups(s: State, obs: seq<Observation>)
    requires Inv(s) && s.phase == InMatch
    requires forall i :: 0 <= i < |obs| ==> InProgressPoll(obs[i])
    ensures var t := Run(s, obs);
      t.next.phase == InMatch && t.next.directory == s.directory &&
      Samples(t.effects) == Dedup(s.previousCardPositions, SampledPayloads(obs)) &&
      t.next.previousCardPositions == LastKept(s.previousCardPositions, SampledPayloads(obs))
    decreases |obs|
  {
    if obs != [] {
      var first := Poll(s, obs[0]);
      SampleWrittenIffChanged(s, obs[0]);
      MatchRunDedups(first.next, obs[1..]);
      var rest := Run(first.next, obs[1..]);
      SamplesAppend(first.effects, rest.effects);
      assert obs == [obs[0]] + obs[1..];
      var xs := SampledPayloads(obs[1..]);
      if obs[0].sample.Got? {
        assert SampledPayloads(obs) == [obs[0].sample.value] + xs;
      } else {
        assert SampledPayloads(obs) == xs;
      }
    }
  }

  /** The dedup law on one concrete stream: p1, p1, p2, p2, p2, p3 of
      distinct payloads other than "None" stores p1, p2, p3 and nothing
      else. */
  lemma DedupLawExample(p1: string, p2: string, p3: string)
    requires p1 != p2 && p2 != p3 && p1 != p3
    requires p1 != "None" && p2 != "None" && p3 != "None"
    ensures Dedup("None", [p1, p1, p2, p2, p2, p3]) == [p1, p2, p3]
  {
    assert [p3][1..] == [];
    assert Dedup(p2, [p3]) == [p3];
    assert [p2, p3][1..] == [p3];
    assert Dedup(p2, [p2, p3]) == [p3];
    assert [p2, p2, p3][1..] == [p2, p3];
    assert Dedup(p2, [p2, p2, p3]) == [p3];
    assert [p2, p2, p2, p3][1..] == [p2, p2, p3];
    assert Dedup(p1, [p2, p2, p2, p3]) == [p2, p3];
    assert [p1, p2, p2, p2, p3][1..] == [p2, p2, p2, p3];
    assert Dedup(p1, [p1, p2, p2, p2, p3]) == [p2, p3];
    assert [p1, p1, p2, p2, p2, p3][1..] == [p1, p2, p2, p2, p3];
  }

  /** `previousCardPositions` is not reset when a new session opens: if the
      first sample of the new session equals the last sample stored in the
      previous one, it is suppressed. */
  lemma NewSessionSuppressesCarriedSample(s: State, o1: Observation, o2: Observation)
    requires Inv(s) && s.phase == AwaitingDeck
    requires o1.deck.Got? && IsValidDeck(o1.deck.value)
    requires InProgressPoll(o2) && o2.sample == Got(s.previousCardPositions)
    ensures var t := Run(s, [o1, o2]);
      t.next.phase == InMatch && Samples(t.effects) == [] &&
      t.next.previousCardPositions == s.previousCardPositions
  {
    var t1 := Poll(s, o1);
    SessionOpensIffActiveDeck(s, o1);
    SampleWrittenIffChanged(t1.next, o2);
    var t2 := Poll(t1.next, o2);
    EffectsOfTwo(MakeDir(SessionFolder(o1.clock)), Write(SessionFolder(o1.clock), DeckName, o1.deck.value.text));
    assert [o1, o2][1..] == [o2];
    assert Run(t1.next, [o2]) == t2;
    SamplesAppend(t1.effects, t2.effects);
  }

  /** A failed sample fetch followed by an unchanged one writes no board
      sample, keeps the session open and leaves every file as it was. */
  lemma TransientSampleFailure(s: State, o1: Observation, o2: Observation)
    requires Inv(s) && s.phase == InMatch
    requires InProgressPoll(o1) && o1.sample.Failure?
    requires InProgressPoll(o2) && o2.sample == Got(s.previousCardPositions)
    ensures var t := Run(s, [o1, o2]);
      t.next.phase == InMatch && t.next.directory == s.directory &&
      t.next.files == s.files && Writes(t.effects) == [] &&
      t.next.previousCardPositions == s.previousCardPositions
  {
    var t1 := Poll(s, o1);
    SampleWrittenIffChanged(s, o1);
    SampleWrittenIffChanged(t1.next, o2);
    var t2 := Poll(t1.next, o2);
    assert [o1, o2][1..] == [o2];
    assert Run(t1.next, [o2]) == t2;
    WritesAppend(t1.effects, t2.effects);
  }

  lemma {:induction false} WritesAppend(a: seq<Effect>, b: seq<Effect>)
    ensures Writes(a + b) == Writes(a) + Writes(b)
    decreases |a|
  {
    if a == [] {
      assert a + b == b;
    } else {
      assert (a + b)[0] == a[0];
      assert (a + b)[1..] == a[1..] + b;
      WritesAppend(a[1..], b);
    }
  }

  /** Polls run one after another: running `xs` then `x` is running
      `xs + [x]`. */
  lemma {:induction false} RunAppend(s: State, xs: seq<Observation>, x: Observation)
    requires Inv(s)
    ensures var a := Run(s, xs); var b := Poll(a.next, x);
      Run(s, xs + [x]) == Transition(b.next, a.effects + b.effects)
    decreases |xs|
  {
    if xs == [] {
      assert [x][1..] == [];
    } else {
      assert (xs + [x])[1..] == xs[1..] + [x];
      RunAppend(Poll(s, xs[0]).next, xs[1..], x);
    }
  }

  lemma RunOne(s: State, o: Observation)
    requires Inv(s)
    ensures Run(s, [o]) == Poll(s, o)
  {
    assert [o][1..] == [];
  }

  /** Running `xs` and then `ys` is running `xs + ys`. */
  lemma {:induction false} RunConcat(s: State, xs: seq<Observation>, ys: seq<Observation>)
    requires Inv(s)
    ensures var a := Run(s, xs); var b := Run(a.next, ys);
      Run(s, xs + ys) == Transition(b.next, a.effects + b.effects)
    decreases |xs|
  {
    if xs == [] {
      assert xs + ys == ys;
    } else {
      var x, rest := xs[0], xs[1..];
      assert xs == [x] + rest;
      assert xs + ys == [x] + (rest + ys);
      var first := Poll(s, x);
      RunCons(s, x, rest);
      RunCons(s, x, rest + ys);
      RunConcat(first.next, rest, ys);
      var a := Run(first.next, rest);
      var b := Run(a.next, ys);
      assert first.effects + (a.effects + b.effects) == (first.effects + a.effects) + b.effects;
    }
  }

  /** Two polls out of a game and one in a game take an idle tracker to
      the deck check without touching anything else. */
  lemma IdleUntilGame(s: State, o0: Observation, o1: Observation, o2: Observation)
    requires Inv(s) && s.phase == Idle
    requires o0.board.Got? && !IsInProgress(o0.board.value)
    requires o1.board.Got? && !IsInProgress(o1.board.value)
    requires InProgressPoll(o2)
    ensures Run(s, [o0, o1, o2]) == Transition(s.(phase := AwaitingDeck), [])
  {
    IdlePollClassifies(s, o0);
    IdlePollClassifies(s, o2);
    RunOne(s, o2);
    RunCons(s, o1, [o2]);
    RunCons(s, o0, [o1, o2]);
  }

  /** In a session: board b1, b1 again, then b2, then the end of the game.
      Exactly three files are written: b1 once, b2 once, the result. */
  lemma SamplesThenResult(s: State, o4: Observation, o5: Observation, o6: Observation, o7: Observation)
    requires Inv(s) && s.phase == InMatch
    requires InProgressPoll(o4) && InProgressPoll(o5) && InProgressPoll(o6)
    requires o4.sample.Got? && o4.sample.value != s.previousCardPositions
    requires o5.sample == o4.sample
    requires o6.sample.Got? && o6.sample != o4.sample
    requires o7.board.Got? && !IsInProgress(o7.board.value) && o7.result.Got?
    ensures var t := Run(s, [o4, o5, o6, o7]); var dir := s.directory.value;
      t.next.phase == Idle && t.next.directory == s.directory &&
      Writes(t.effects) == [Write(dir, SampleName(o4.clock), o4.sample.value),
                            Write(dir, SampleName(o6.clock), o6.sample.value),
                            Write(dir, ResultName, o7.result.value)]
  {
    var t4 := Poll(s, o4);
    SampleWrittenIffChanged(s, o4);
    var t5 := Poll(t4.next, o5);
    SampleWrittenIffChanged(t4.next, o5);
    var t6 := Poll(t5.next, o6);
    SampleWrittenIffChanged(t5.next, o6);
    var t7 := Poll(t6.next, o7);
    MatchEndsWithResult(t6.next, o7);
    RunOne(t6.next, o7);
    RunCons(t5.next, o6, [o7]);
    RunCons(t4.next, o5, [o6, o7]);
    RunCons(s, o4, [o5, o6, o7]);
    WritesAppend(t6.effects, t7.effects);
    WritesAppend(t5.effects, t6.effects + t7.effects);
    WritesAppend(t4.effects, t5.effects + (t6.effects + t7.effects));
  }

  /** From the deck check on: an active deck, the board b1 twice, then b2,
      then the end; the deck, b1, b2 and the result land in the new folder. */
  lemma SessionFromDeck(s: State, o3: Observation, tail: seq<Observation>)
    requires Inv(s) && s.phase == AwaitingDeck && |tail| == 4
    requires o3.deck.Got? && IsValidDeck(o3.deck.value)
    requires InProgressPoll(tail[0]) && InProgressPoll(tail[1]) && InProgressPoll(tail[2])
    requires tail[0].sample.Got? && tail[0].sample.value != s.previousCardPositions
    requires tail[1].sample == tail[0].sample
    requires tail[2].sample.Got? && tail[2].sample != tail[0].sample
    requires tail[3].board.Got? && !IsInProgress(tail[3].board.value) && tail[3].result.Got?
    ensures var t := Run(s, [o3] + tail); var f := SessionFolder(o3.clock);
      t.next.phase == Idle && t.next.directory == Some(f) &&
      Writes(t.effects) == [Write(f, DeckName, o3.deck.value.text),
                            Write(f, SampleName(tail[0].clock), tail[0].sample.value),
                            Write(f, SampleName(tail[2].clock), tail[2].sample.value),
                            Write(f, ResultName, tail[3].result.value)]
  {
    var f := SessionFolder(o3.clock);
    var t3 := Poll(s, o3);
    SessionOpensIffActiveDeck(s, o3);
    assert t3.next.directory == Some(f);
    assert Writes(t3.effects) == [Write(f, DeckName, o3.deck.value.text)];
    assert tail == [tail[0], tail[1], tail[2], tail[3]];
    var tm := Run(t3.next, tail);
    SamplesThenResult(t3.next, tail[0], tail[1], tail[2], tail[3]);
    RunCons(s, o3, tail);
    WritesAppend(t3.effects, tm.effects);
  }

  /** A whole match from an idle tracker: two idle polls, the game starts,
      an active deck, the board b1 twice, then b2, then the end. The
      recorder writes the deck, b1 once, b2 once and the result, all in the
      folder named after the deck poll's clock, and is idle again. */
  lemma WholeMatchScenario(s: State, obs: seq<Observation>)
    requires Inv(s) && s.phase == Idle && |obs| == 8
    requires obs[0].board.Got? && !IsInProgress(obs[0].board.value)
    requires obs[1].board.Got? && !IsInProgress(obs[1].board.value)
    requires InProgressPoll(obs[2])
    requires obs[3].deck.Got? && IsValidDeck(obs[3].deck.value)
    requires InProgressPoll(obs[4]) && InProgressPoll(obs[5]) && InProgressPoll(obs[6])
    requires obs[4].sample.Got? && obs[4].sample.value != s.previousCardPositions
    requires obs[5].sample == obs[4].sample
    requires obs[6].sample.Got? && obs[6].sample != obs[4].sample
    requires obs[7].board.Got? && !IsInProgress(obs[7].board.value) && obs[7].result.Got?
    ensures var t := Run(s, obs); var f := SessionFolder(obs[3].clock);
      t.next.phase == Idle && t.next.directory == Some(f) &&
      Writes(t.effects) == [Write(f, DeckName, obs[3].deck.value.text),
                            Write(f, SampleName(obs[4].clock), obs[4].sample.value),
                            Write(f, SampleName(obs[6].clock), obs[6].sample.value),
                            Write(f, ResultName, obs[7].result.value)]
  {
    var head, tail := obs[..3], obs[4..];
    assert head == [obs[0], obs[1], obs[2]];
    var rest := [obs[3]] + tail;
    assert obs == head + rest;
    var s3 := s.(phase := AwaitingDeck);
    IdleUntilGame(s, obs[0], obs[1], obs[2]);
    assert Run(s, head) == Transition(s3, []);
    SessionFromDeck(s3, obs[3], tail);
    RunConcat(s, head, rest);
    assert [] + Run(s3, rest).effects == Run(s3, rest).effects;
  }

  lemma RunCons(s: State, o: Observation, rest: seq<Observation>)
    requires Inv(s)
    ensures var a := Poll(s, o); var b := Run(a.next, rest);
      Run(s, [o] + rest) == Transition(b.next, a.effects + b.effects)
  {
    assert ([o] + rest)[1..] == rest;
  }
}

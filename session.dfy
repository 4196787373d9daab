/** The session-tracking state machine as functions: one poll turns the
    tracker's state and what the outside world answered into the next state
    and the file-system operations performed on the way. */
module Session {
  import opened Values
  import opened Naming

  /** Which of the three polling functions runs next. `Halted` is the end of
      the polling chain: the source dereferences the `undefined` of a failed
      fetch, the promise rejects and no further poll is scheduled. */
  datatype Phase = Idle | AwaitingDeck | InMatch | Halted

  /** One file-system operation: `mkdirSync(path, {recursive: true})`, or
      `writeFile(directory + '/' + name, content)`. */
  datatype Effect = MakeDir(path: string) | Write(directory: string, name: string, content: string)

  /** The module-level variables and the disk: the phase, `directory`
      (undefined until the first session), `previousCardPositions`, the
      files by path and the folders created. `folders` records the paths
      the script asks `mkdirSync` for; the parent folders that the recursive
      option creates on the way (`Tracked Data` itself) are not listed. */
  datatype State = State(
    phase: Phase,
    directory: Option<string>,
    previousCardPositions: string,
    files: map<string, string>,
    folders: set<string>)

  datatype Transition = Transition(next: State, effects: seq<Effect>)

  /** The state when the script starts. */
  const Initial := State(Idle, None, "None", map[], {})

  /** In a match there is a session folder, and whenever a folder has been
      chosen it has the session-folder shape and exists. */
  ghost predicate Inv(s: State) {
    (s.phase == InMatch ==> s.directory.Some?) &&
    (s.directory.Some? ==> IsSessionFolder(s.directory.value) && s.directory.value in s.folders)
  }

  function Path(e: Effect): string {
    match e
    case MakeDir(p) => p
    case Write(d, n, _) => ArtifactPath(d, n)
  }

  /** Carries out one operation: a folder is created if missing, a file is
      created or overwritten. */
  function Perform(s: State, e: Effect): State {
    match e
    case MakeDir(p) => s.(folders := s.folders + {p})
    case Write(d, n, c) => s.(files := s.files[ArtifactPath(d, n) := c])
  }

  function PerformAll(s: State, es: seq<Effect>): (r: State)
    ensures r.phase == s.phase && r.directory == s.directory
    ensures r.previousCardPositions == s.previousCardPositions
    ensures s.folders <= r.folders
    ensures forall i :: 0 <= i < |es| && es[i].MakeDir? ==> es[i].path in r.folders
    decreases |es|
  {
    if es == [] then s else PerformAll(Perform(s, es[0]), es[1..])
  }

  lemma PerformOne(s: State, e: Effect)
    ensures PerformAll(s, [e]) == Perform(s, e)
  {
    assert [e][1..] == [];
  }

  lemma PerformTwo(s: State, e1: Effect, e2: Effect)
    ensures PerformAll(s, [e1, e2]) == Perform(Perform(s, e1), e2)
  {
    assert [e1, e2][1..] == [e2];
    PerformOne(Perform(s, e1), e2);
  }

  /** One run of `trackGameState`: poll the board; in progress hands over to
      `trackGame`, anything else polls again. */
  function IdlePoll(s: State, o: Observation): (t: Transition)
    ensures t.effects == [] && t.next == s.(phase := t.next.phase)
    ensures t.next.phase == (if o.board.Failure? then Halted
                             else if o.board.value.gameState == "InProgress" then AwaitingDeck
                             else s.phase)
  {
    match o.board
    case Failure => Transition(s.(phase := Halted), [])
    case Got(b) =>
      if IsInProgress(b) then Transition(s.(phase := AwaitingDeck), [])
      else Transition(s, [])
  }

  /** One run of `trackGame`: fetch the deck; an active deck opens a session
      folder, stores the deck and hands over to `storeData`; otherwise the
      deck is polled again. */
  function DeckPoll(s: State, o: Observation): (t: Transition)
    ensures t.next.previousCardPositions == s.previousCardPositions
    ensures o.deck.Got? && o.deck.value.code.Some? && o.deck.value.cards != Some("{}") ==>
      t.next.phase == InMatch && t.next.directory == Some(SessionFolder(o.clock)) &&
      t.next.files == s.files[ArtifactPath(SessionFolder(o.clock), DeckName) := o.deck.value.text]
    ensures o.deck.Got? && !(o.deck.value.code.Some? && o.deck.value.cards != Some("{}")) ==>
      t == Transition(s, [])
  {
    match o.deck
    case Failure => Transition(s.(phase := Halted), [])
    case Got(d) =>
      if IsValidDeck(d) then
        var folder := SessionFolder(o.clock);
        var effects := [MakeDir(folder), Write(folder, DeckName, d.text)];
        PerformTwo(s.(phase := InMatch, directory := Some(folder)), effects[0], effects[1]);
        Transition(PerformAll(s.(phase := InMatch, directory := Some(folder)), effects), effects)
      else Transition(s, [])
  }

  /** One run of `storeData`: poll the board; in progress, make sure the
      sample folder exists and store the sample if it is defined and differs
      from the last one stored; otherwise store the game result and go back
      to `trackGameState`. */
  function MatchPoll(s: State, o: Observation): (t: Transition)
    requires s.directory.Some?
    ensures t.next.directory == s.directory
    ensures InProgressPoll(o) ==> t.next.phase == s.phase
    ensures !InProgressPoll(o) ==> t.next.phase == Idle || t.next.phase == Halted
    ensures t.next.previousCardPositions ==
      if InProgressPoll(o) && o.sample.Got? then o.sample.value else s.previousCardPositions
    ensures !InProgressPoll(o) && o.board.Got? && o.result.Got? ==>
      t.next.phase == Idle &&
      t.next.files == s.files[ArtifactPath(s.directory.value, ResultName) := o.result.value]
  {
    var dir := s.directory.value;
    match o.board
    case Failure => Transition(s.(phase := Halted), [])
    case Got(b) =>
      if IsInProgress(b) then
        var mk := [MakeDir(ArtifactPath(dir, SamplesFolder))];
        if o.sample.Got? && o.sample.value != s.previousCardPositions then
          var effects := mk + [Write(dir, SampleName(o.clock), o.sample.value)];
          Transition(PerformAll(s.(previousCardPositions := o.sample.value), effects), effects)
        else
          Transition(PerformAll(s, mk), mk)
      else
        match o.result
        case Failure => Transition(s.(phase := Halted), [])
        case Got(r) =>
          var effects := [Write(dir, ResultName, r)];
          PerformOne(s.(phase := Idle), effects[0]);
          Transition(PerformAll(s.(phase := Idle), effects), effects)
  }

  /** One poll, by phase. */
  function Poll(s: State, o: Observation): (t: Transition)
    requires Inv(s)
    ensures Inv(t.next)
  {
    match s.phase
    case Idle => IdlePoll(s, o)
    case AwaitingDeck =>
      SessionFolderShape(o.clock);
      DeckPoll(s, o)
    case InMatch => MatchPoll(s, o)
    case Halted => Transition(s, [])
  }

  /** A sequence of polls, and every operation they performed, in order. */
  function Run(s: State, obs: seq<Observation>): (t: Transition)
    requires Inv(s)
    ensures Inv(t.next)
    decreases |obs|
  {
    if obs == [] then Transition(s, [])
    else
      var first := Poll(s, obs[0]);
      var rest := Run(first.next, obs[1..]);
      Transition(rest.next, first.effects + rest.effects)
  }

  /** The contents of the board samples among some operations, in order. */
  function Samples(es: seq<Effect>): seq<string>
    decreases |es|
  {
    if es == [] then []
    else if es[0].Write? && SamplePrefix <= es[0].name then [es[0].content] + Samples(es[1..])
    else Samples(es[1..])
  }

  /** The defined board samples of a sequence of polls. */
  function SampledPayloads(obs: seq<Observation>): seq<string>
    decreases |obs|
  {
    if obs == [] then []
    else if obs[0].sample.Got? then [obs[0].sample.value] + SampledPayloads(obs[1..])
    else SampledPayloads(obs[1..])
  }

  /** The reference for duplicate suppression: drop every payload equal to
      the one kept before it, starting from `last`. */
  function Dedup(last: string, xs: seq<string>): seq<string>
    decreases |xs|
  {
    if xs == [] then []
    else if xs[0] == last then Dedup(last, xs[1..])
    else [xs[0]] + Dedup(xs[0], xs[1..])
  }

  /** The last payload `Dedup` keeps, or `last` if it keeps none. */
  function LastKept(last: string, xs: seq<string>): string {
    var r := Dedup(last, xs);
    if r == [] then last else r[|r| - 1]
  }

  /** A match poll that sees the game in progress. */
  predicate InProgressPoll(o: Observation) {
    o.board.Got? && IsInProgress(o.board.value)
  }
}

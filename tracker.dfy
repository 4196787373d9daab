/** The recorder as the script runs it: the module-level variables and the
    disk as fields of one object, and one method per polling function, each
    proved to do what the matching function of module Session says. */
module Tracker {
  import opened Values
  import opened Naming
  import opened Session
  import SessionProperties

  class SessionTracker {
    var phase: Phase
    var directory: Option<string>
    var previousCardPositions: string
    var files: map<string, string>
    var folders: set<string>

    ghost function Snapshot(): State
      reads this
    {
      State(phase, directory, previousCardPositions, files, folders)
    }

    ghost predicate Valid()
      reads this
    {
      Inv(Snapshot())
    }

    /** The script's start: no folder yet, `previousCardPositions` is
        "None", idle polling. */
    constructor ()
      ensures Valid() && Snapshot() == Initial
    {
      phase := Idle;
      directory := None;
      previousCardPositions := "None";
      files := map[];
      folders := {};
    }

    /** `createDirectory`: `mkdirSync` with `recursive`, so an existing
        folder is no error. */
    method CreateDirectory(path: string) returns (e: Effect)
      modifies this`folders
      ensures e == MakeDir(path)
      ensures Snapshot() == Perform(old(Snapshot()), e)
    {
      folders := folders + {path};
      e := MakeDir(path);
    }

    /** `createFileAndWrite`: create or overwrite `directory/name`. */
    method CreateFileAndWrite(name: string, content: string) returns (e: Effect)
      requires directory.Some?
      modifies this`files
      ensures e == Write(directory.value, name, content)
      ensures Snapshot() == Perform(old(Snapshot()), e)
    {
      files := files[ArtifactPath(directory.value, name) := content];
      e := Write(directory.value, name, content);
    }

    /** `generateUniqueFolder`: name the session after the clock and create
        its folder. */
    method GenerateUniqueFolder(clock: Clock) returns (e: Effect)
      modifies this`directory, this`folders
      ensures directory == Some(SessionFolder(clock)) && e == MakeDir(SessionFolder(clock))
      ensures Snapshot() == Perform(old(Snapshot()).(directory := Some(SessionFolder(clock))), e)
    {
      directory := Some(SessionFolder(clock));
      e := CreateDirectory(SessionFolder(clock));
    }

    /** `storeDeck`: the serialised deck goes to `deck`. */
    method StoreDeck(deck: Deck) returns (e: Effect)
      requires directory.Some?
      modifies this`files
      ensures e == Write(directory.value, DeckName, deck.text)
      ensures Snapshot() == Perform(old(Snapshot()), e)
    {
      e := CreateFileAndWrite(DeckName, deck.text);
    }

    /** `trackGameState`. */
    method TrackGameState(o: Observation) returns (effects: seq<Effect>)
      requires Valid() && phase == Idle
      modifies this
      ensures Valid()
      ensures Transition(Snapshot(), effects) == IdlePoll(old(Snapshot()), o)
    {
      effects := [];
      match o.board {
        case Failure =>
          phase := Halted;
        case Got(b) =>
          if IsInProgress(b) {
            phase := AwaitingDeck;
          }
      }
    }

    /** `trackGame`. */
    method TrackGame(o: Observation) returns (effects: seq<Effect>)
      requires Valid() && phase == AwaitingDeck
      modifies this
      ensures Valid()
      ensures Transition(Snapshot(), effects) == DeckPoll(old(Snapshot()), o)
    {
      effects := [];
      match o.deck {
        case Failure =>
          phase := Halted;
        case Got(d) =>
          if IsValidDeck(d) {
            ghost var s0 := Snapshot();
            var mk := GenerateUniqueFolder(o.clock);
            var w := StoreDeck(d);
            phase := InMatch;
            effects := [mk, w];
            PerformTwo(s0.(phase := InMatch, directory := directory), mk, w);
            SessionFolderShape(o.clock);
          }
      }
    }

    /** `storeData`. */
    method StoreData(o: Observation) returns (effects: seq<Effect>)
      requires Valid() && phase == InMatch
      modifies this
      ensures Valid()
      ensures Transition(Snapshot(), effects) == MatchPoll(old(Snapshot()), o)
    {
      ghost var s0 := Snapshot();
      var dir := directory.value;
      effects := [];
      match o.board {
        case Failure =>
          phase := Halted;
        case Got(b) =>
          if IsInProgress(b) {
            var mk := CreateDirectory(ArtifactPath(dir, SamplesFolder));
            if o.sample.Got? && o.sample.value != previousCardPositions {
              var w := CreateFileAndWrite(SampleName(o.clock), o.sample.value);
              previousCardPositions := o.sample.value;
              effects := [mk, w];
              assert [mk] + [w] == effects;
              PerformTwo(s0.(previousCardPositions := o.sample.value), mk, w);
            } else {
              effects := [mk];
              PerformOne(s0, mk);
            }
          } else {
            match o.result {
              case Failure =>
                phase := Halted;
              case Got(r) =>
                var w := CreateFileAndWrite(ResultName, r);
                phase := Idle;
                effects := [w];
                PerformOne(s0.(phase := Idle), w);
            }
          }
      }
    }

    /** One poll, by phase; a halted tracker does nothing. */
    method Step(o: Observation) returns (effects: seq<Effect>)
      requires Valid()
      modifies this
      ensures Valid()
      ensures Transition(Snapshot(), effects) == Poll(old(Snapshot()), o)
    {
      match phase {
        case Idle => effects := TrackGameState(o);
        case AwaitingDeck => effects := TrackGame(o);
        case InMatch => effects := StoreData(o);
        case Halted => effects := [];
      }
    }

    /** The self-scheduling poll loop over a finite stretch of observations:
        the operations performed and the final state are those of `Run`. */
    method Track(obs: seq<Observation>) returns (effects: seq<Effect>)
      requires Valid()
      modifies this
      ensures Valid()
      ensures Transition(Snapshot(), effects) == Run(old(Snapshot()), obs)
    {
      ghost var s0 := Snapshot();
      effects := [];
      var i := 0;
      while i < |obs|
        invariant 0 <= i <= |obs|
        invariant Valid()
        invariant Transition(Snapshot(), effects) == Run(s0, obs[..i])
      {
        var e := Step(obs[i]);
        SessionProperties.RunAppend(s0, obs[..i], obs[i]);
        assert obs[..i + 1] == obs[..i] + [obs[i]];
        effects := effects + e;
        i := i + 1;
      }
      assert obs[..|obs|] == obs;
    }
  }
}

/** Moving a damaged ledger aside, with a manifest that lets an interrupted move be finished
    (electron/sessionEvents.ts). The budget of an operation is the number of file system mutations after which the
    process dies. */
module Quarantine {
  import opened Json

  type Key = nat
  type DirId = nat

  datatype Name = EventsFile | IndexFile

  type Bytes = seq<nat>

  datatype MoveState = Moving | Complete

  datatype Manifest = Manifest(key: Key, state: MoveState, planned: seq<Name>, moved: seq<Name>)

  /** An archive directory; a manifest that is missing or unreadable is None. */
  datatype Dir = Dir(manifest: Option<Manifest>, files: map<Name, Bytes>)

  /** The directory of one location, its rebuild marker, and the quarantine directories of all locations. */
  datatype Files = Files(source: map<Name, Bytes>, marker: Option<Key>, dirs: map<DirId, Dir>)

  datatype Error = Collision | ArtifactMissing | MarkerMismatch | NoEventsFile | NotRequired

  datatype Outcome = Nothing | Done(dir: DirId) | Crashed | Failed(error: Error)

  datatype Result = Result(files: Files, outcome: Outcome)

  // ---------------------------------------------------------------- one attempt, cut off after `budget` mutations

  /** Write a temporary file and rename it over the manifest. */
  function Persist(files: Files, d: DirId, manifest: Manifest): Files
    requires d in files.dirs
  {
    files.(dirs := files.dirs[d := files.dirs[d].(manifest := Some(manifest))])
  }

  function Rename(files: Files, d: DirId, name: Name): Files
    requires d in files.dirs && name in files.source
  {
    files.(source := files.source - {name},
           dirs := files.dirs[d := files.dirs[d].(files := files.dirs[d].files[name := files.source[name]])])
  }

  function AfterRename(files: Files, d: DirId, name: Name): Files
    requires d in files.dirs
  {
    if name in files.source then Rename(files, d, name) else files
  }

  function Noted(m: Manifest, name: Name): Manifest {
    if name in m.moved then m else m.(moved := m.moved + [name])
  }

  /** The planned artifacts from the i-th on, then completion. A fresh quarantine moves the same way: it has just seen
      every planned file, and its directory is new. */
  function MoveFrom(files: Files, d: DirId, m: Manifest, i: nat, budget: nat): Result
    requires d in files.dirs && i <= |m.planned|
    decreases |m.planned| - i
  {
    if i == |m.planned| then
      if budget == 0 then Result(files, Crashed) else Result(Persist(files, d, m.(state := Complete)), Done(d))
    else
      var name := m.planned[i];
      if name in files.source && name in files.dirs[d].files then Result(files, Failed(Collision))
      else if name !in files.source && name !in files.dirs[d].files then Result(files, Failed(ArtifactMissing))
      else if name in files.source && budget == 0 then Result(files, Crashed)
      else
        var renamed := AfterRename(files, d, name);
        var left := if name in files.source then budget - 1 else budget;
        if left == 0 then Result(renamed, Crashed)
        else MoveFrom(Persist(renamed, d, Noted(m, name)), d, Noted(m, name), i + 1, left - 1)
  }

  function MarkThenMove(files: Files, key: Key, d: DirId, m: Manifest, budget: nat): Result
    requires d in files.dirs
  {
    if files.marker.Some? && files.marker.value != key then Result(files, Failed(MarkerMismatch))
    else if files.marker.Some? then MoveFrom(files, d, m, 0, budget)
    else if budget == 0 then Result(files, Crashed)
    else MoveFrom(files.(marker := Some(key)), d, m, 0, budget - 1)
  }

  predicate Interrupted(files: Files, key: Key, d: DirId) {
    && d in files.dirs && files.dirs[d].manifest.Some?
    && files.dirs[d].manifest.value.key == key && files.dirs[d].manifest.value.state == Moving
  }

  /** `recoverInterruptedSessionEventLedgerQuarantine`: the first interrupted manifest of the location in directory
      order. */
  function Recover(files: Files, key: Key, order: seq<DirId>, budget: nat): Result {
    if order == [] then Result(files, Nothing)
    else if Interrupted(files, key, order[0])
         then MarkThenMove(files, key, order[0], files.dirs[order[0]].manifest.value, budget)
    else Recover(files, key, order[1..], budget)
  }

  function Planned(source: map<Name, Bytes>): seq<Name> {
    (if IndexFile in source then [IndexFile] else []) + [EventsFile]
  }

  /** `quarantineSessionEventLedger`; `required` says that the ledger's coverage allows it. */
  function Quarantined(files: Files, key: Key, order: seq<DirId>, newDir: DirId, required: bool, budget: nat): Result {
    var recovered := Recover(files, key, order, budget);
    if recovered.outcome != Nothing then recovered
    else if EventsFile !in files.source then Result(files, Failed(NoEventsFile))
    else if !required then Result(files, Failed(NotRequired))
    else if budget == 0 then Result(files, Crashed)
    else
      var made := files.(dirs := files.dirs[newDir := Dir(None, map[])]);
      if budget == 1 then Result(made, Crashed)
      else
        var m := Manifest(key, Moving, Planned(files.source), []);
        MarkThenMove(Persist(made, newDir, m), key, newDir, m, budget - 2)
  }

  // ---------------------------------------------------------------- the files in place

  class LedgerFiles {
    var source: map<Name, Bytes>
    var marker: Option<Key>
    var dirs: map<DirId, Dir>

    function Contents(): Files
      reads this
    {
      Files(source, marker, dirs)
    }

    method PersistManifest(d: DirId, manifest: Manifest)
      requires d in dirs
      modifies this
      ensures Contents() == Persist(old(Contents()), d, manifest)
    {
      dirs := dirs[d := dirs[d].(manifest := Some(manifest))];
    }

    method MoveArtifacts(d: DirId, manifest: Manifest, budget: nat) returns (outcome: Outcome)
      requires d in dirs
      modifies this
      ensures Result(Contents(), outcome) == MoveFrom(old(Contents()), d, manifest, 0, budget)
    {
      var m, left := manifest, budget;
      var i := 0;
      while i < |m.planned|
        invariant 0 <= i <= |m.planned| && d in dirs
        invariant MoveFrom(Contents(), d, m, i, left) == MoveFrom(old(Contents()), d, manifest, 0, budget)
        decreases |m.planned| - i
      {
        var name := m.planned[i];
        if name in source && name in dirs[d].files {
          return Failed(Collision);
        }
        if name !in source && name !in dirs[d].files {
          return Failed(ArtifactMissing);
        }
        if name in source {
          if left == 0 {
            return Crashed;
          }
          left := left - 1;
          dirs := dirs[d := dirs[d].(files := dirs[d].files[name := source[name]])];
          source := source - {name};
        }
        if left == 0 {
          return Crashed;
        }
        left := left - 1;
        if name !in m.moved {
          m := m.(moved := m.moved + [name]);
        }
        PersistManifest(d, m);
        i := i + 1;
      }
      if left == 0 {
        return Crashed;
      }
      PersistManifest(d, m.(state := Complete));
      return Done(d);
    }

    method EnsureMarkerThenMove(key: Key, d: DirId, manifest: Manifest, budget: nat) returns (outcome: Outcome)
      requires d in dirs
      modifies this
      ensures Result(Contents(), outcome) == MarkThenMove(old(Contents()), key, d, manifest, budget)
    {
      if marker.Some? {
        if marker.value != key {
          return Failed(MarkerMismatch);
        }
        outcome := MoveArtifacts(d, manifest, budget);
        return;
      }
      if budget == 0 {
        return Crashed;
      }
      marker := Some(key);
      outcome := MoveArtifacts(d, manifest, budget - 1);
    }

    method RecoverInterrupted(key: Key, order: seq<DirId>, budget: nat) returns (outcome: Outcome)
      modifies this
      ensures Result(Contents(), outcome) == Recover(old(Contents()), key, order, budget)
    {
      var i := 0;
      while i < |order|
        invariant 0 <= i <= |order| && Contents() == old(Contents())
        invariant Recover(Contents(), key, order[i..], budget) == Recover(Contents(), key, order, budget)
      {
        assert order[i..][1..] == order[i + 1..];
        if Interrupted(Contents(), key, order[i]) {
          outcome := EnsureMarkerThenMove(key, order[i], dirs[order[i]].manifest.value, budget);
          return;
        }
        i := i + 1;
      }
      return Nothing;
    }

    method QuarantineLedger(key: Key, order: seq<DirId>, newDir: DirId, required: bool, budget: nat)
        returns (outcome: Outcome)
      modifies this
      ensures Result(Contents(), outcome) == Quarantined(old(Contents()), key, order, newDir, required, budget)
    {
      outcome := RecoverInterrupted(key, order, budget);
      if outcome != Nothing {
        return;
      }
      RecoverNothing(old(Contents()), key, order, budget);
      if EventsFile !in source {
        return Failed(NoEventsFile);
      }
      if !required {
        return Failed(NotRequired);
      }
      if budget == 0 {
        return Crashed;
      }
      dirs := dirs[newDir := Dir(None, map[])];
      if budget == 1 {
        return Crashed;
      }
      var manifest := Manifest(key, Moving, (if IndexFile in source then [IndexFile] else []) + [EventsFile], []);
      PersistManifest(newDir, manifest);
      outcome := EnsureMarkerThenMove(key, newDir, manifest, budget - 2);
    }
  }

  /** Recovery that finds nothing to finish touches nothing. */
  lemma {:induction false} RecoverNothing(files: Files, key: Key, order: seq<DirId>, budget: nat)
    ensures Recover(files, key, order, budget).outcome == Nothing ==> Recover(files, key, order, budget).files == files
    ensures Recover(files, key, order, budget).outcome == Nothing <==>
        forall i | 0 <= i < |order| :: !Interrupted(files, key, order[i])
  {
    if order != [] {
      if Interrupted(files, key, order[0]) {
        MoveNeverNothing(files, key, order[0], files.dirs[order[0]].manifest.value, budget);
      } else {
        RecoverNothing(files, key, order[1..], budget);
        assert forall i | 0 < i < |order| :: order[i] == order[1..][i - 1];
      }
    }
  }

  lemma {:induction false} MoveFromNeverNothing(files: Files, d: DirId, m: Manifest, i: nat, budget: nat)
    requires d in files.dirs && i <= |m.planned|
    ensures MoveFrom(files, d, m, i, budget).outcome != Nothing
    decreases |m.planned| - i
  {
    if i < |m.planned| {
      var name := m.planned[i];
      var left := if name in files.source && budget > 0 then budget - 1 else budget;
      if left > 0 {
        MoveFromNeverNothing(Persist(AfterRename(files, d, name), d, Noted(m, name)), d, Noted(m, name), i + 1,
                             left - 1);
      }
    }
  }

  lemma MoveNeverNothing(files: Files, key: Key, d: DirId, m: Manifest, budget: nat)
    requires d in files.dirs
    ensures MarkThenMove(files, key, d, m, budget).outcome != Nothing
  {
    MoveFromNeverNothing(files, d, m, 0, budget);
    MoveFromNeverNothing(files.(marker := Some(key)), d, m, 0, if budget == 0 then 0 else budget - 1);
  }

  // ---------------------------------------------------------------- crash safety

  /** Each artifact is in exactly one of source and archive, with its original bytes. */
  predicate Placed(files: Files, d: DirId, original: map<Name, Bytes>) {
    && d in files.dirs
    && files.source.Keys + files.dirs[d].files.Keys == original.Keys
    && (forall name | name in files.source :: name !in files.dirs[d].files)
    && (forall name | name in files.source :: files.source[name] == original[name])
    && (forall name | name in files.dirs[d].files :: files.dirs[d].files[name] == original[name])
    && (IndexFile in files.source ==> EventsFile in files.source)
  }

  predicate OnlyInterrupted(files: Files, key: Key, d: DirId) {
    forall other | other in files.dirs && other != d :: !Interrupted(files, key, other)
  }

  /** A quarantine of `original` into `d` is under way. */
  predicate UnderWay(files: Files, key: Key, d: DirId, original: map<Name, Bytes>) {
    && Placed(files, d, original) && Interrupted(files, key, d) && OnlyInterrupted(files, key, d)
    && files.dirs[d].manifest.value.planned == Planned(original)
    && (forall name | name in files.dirs[d].manifest.value.moved :: name in files.dirs[d].files)
  }

  /** It is finished: every artifact is in the archive, byte for byte, and nothing is left at the source. */
  predicate Finished(files: Files, key: Key, d: DirId, original: map<Name, Bytes>) {
    && d in files.dirs && files.dirs[d].files == original && files.source == map[]
    && files.dirs[d].manifest.Some? && files.dirs[d].manifest.value.key == key
    && files.dirs[d].manifest.value.state == Complete && files.dirs[d].manifest.value.planned == Planned(original)
    && (forall other | other in files.dirs :: !Interrupted(files, key, other))
  }

  predicate NotStarted(files: Files, key: Key, original: map<Name, Bytes>) {
    files.source == original && forall other | other in files.dirs :: !Interrupted(files, key, other)
  }

  /** The only states a quarantine can be found in. */
  ghost predicate Phase(files: Files, key: Key, original: map<Name, Bytes>) {
    && EventsFile in original
    && (files.marker == None || files.marker == Some(key))
    && (|| NotStarted(files, key, original)
        || (exists d :: UnderWay(files, key, d, original))
        || (files.marker == Some(key) && exists d :: Finished(files, key, d, original)))
  }

  /** The other archive directories. */
  predicate OthersKept(files: Files, files': Files, d: DirId) {
    forall other | other in files.dirs && other != d :: other in files'.dirs && files'.dirs[other] == files.dirs[other]
  }

  /** One rename keeps every byte. */
  lemma RenameKeeps(files: Files, key: Key, d: DirId, original: map<Name, Bytes>, name: Name)
    requires UnderWay(files, key, d, original) && name in files.source
    requires name == EventsFile ==> IndexFile !in files.source
    ensures UnderWay(Rename(files, d, name), key, d, original) && OthersKept(files, Rename(files, d, name), d)
  {
  }

  lemma PersistKeeps(files: Files, key: Key, d: DirId, original: map<Name, Bytes>, m: Manifest)
    requires UnderWay(files, key, d, original)
    requires m.key == key && m.state == Moving && m.planned == Planned(original) && forall name | name in m.moved ::
        name in files.dirs[d].files
    ensures UnderWay(Persist(files, d, m), key, d, original) && OthersKept(files, Persist(files, d, m), d)
  {
  }

  predicate Arrived(files: Files, d: DirId, planned: seq<Name>, i: nat)
    requires i <= |planned|
  {
    d in files.dirs && forall j | 0 <= j < i :: planned[j] in files.dirs[d].files
  }

  lemma AllArrived(files: Files, key: Key, d: DirId, original: map<Name, Bytes>, m: Manifest)
    requires EventsFile in original && UnderWay(files, key, d, original) && m.key == key
        && m.planned == Planned(original)
    requires Arrived(files, d, m.planned, |m.planned|)
    ensures Finished(Persist(files, d, m.(state := Complete)), key, d, original)
  {
    forall name | name in original
      ensures name in files.dirs[d].files && name !in files.source
    {
      assert name in m.planned by {
        if name == EventsFile {
          assert m.planned[|m.planned| - 1] == EventsFile;
        } else {
          assert m.planned[0] == IndexFile;
        }
      }
    }
    assert files.dirs[d].files == original;
    assert files.source == map[];
  }

  lemma OneMove(files: Files, key: Key, d: DirId, original: map<Name, Bytes>, m: Manifest, i: nat)
    requires EventsFile in original && UnderWay(files, key, d, original) && files.dirs[d].manifest == Some(m)
    requires i < |m.planned| && Arrived(files, d, m.planned, i)
    ensures var name := m.planned[i];
            var renamed := AfterRename(files, d, name);
            && (name in files.source <==> name !in files.dirs[d].files)
            && UnderWay(renamed, key, d, original) && name in renamed.dirs[d].files && OthersKept(files, renamed, d)
            && Arrived(renamed, d, m.planned, i + 1) && renamed.marker == files.marker
  {
    var name := m.planned[i];
    assert name in original;
    if name in files.source {
      if name == EventsFile && IndexFile in original {
        assert i == 1 && m.planned[0] == IndexFile;
      }
      RenameKeeps(files, key, d, original, name);
    }
  }

  lemma NoteMove(files: Files, key: Key, d: DirId, original: map<Name, Bytes>, m: Manifest, i: nat)
    requires EventsFile in original && UnderWay(files, key, d, original) && files.dirs[d].manifest == Some(m)
    requires i < |m.planned| && Arrived(files, d, m.planned, i)
    ensures var m' := Noted(m, m.planned[i]);
            var renamed := AfterRename(files, d, m.planned[i]);
            var noted := Persist(renamed, d, m');
            && UnderWay(noted, key, d, original) && noted.dirs[d].manifest == Some(m') && OthersKept(files, noted, d)
            && m'.planned == m.planned && Arrived(noted, d, m'.planned, i + 1) && noted.marker == files.marker
  {
    OneMove(files, key, d, original, m, i);
    var m' := Noted(m, m.planned[i]);
    var renamed := AfterRename(files, d, m.planned[i]);
    assert m.key == key && m.state == Moving && m.planned == Planned(original);
    assert forall n | n in m'.moved :: n in renamed.dirs[d].files;
    PersistKeeps(renamed, key, d, original, m');
  }

  /** The last mutation of the move. */
  lemma MoveEnds(files: Files, key: Key, d: DirId, original: map<Name, Bytes>, m: Manifest, budget: nat)
    requires EventsFile in original && UnderWay(files, key, d, original) && files.dirs[d].manifest == Some(m)
    requires Arrived(files, d, m.planned, |m.planned|)
    ensures var r := MoveFrom(files, d, m, |m.planned|, budget);
            && OthersKept(files, r.files, d) && r.files.marker == files.marker
            && (if budget == 0 then r.outcome == Crashed && UnderWay(r.files, key, d, original)
                else r.outcome == Done(d) && Finished(r.files, key, d, original))
  {
    hide Finished, Placed, OnlyInterrupted, Planned;
    if budget > 0 {
      AllArrived(files, key, d, original, m);
    }
  }

  /** The move, from any interrupted position: never an error; cut off it stays under way; with the budget it
      finishes. */
  lemma {:induction false} MoveIsSafe(files: Files, key: Key, d: DirId, original: map<Name, Bytes>, m: Manifest, i: nat,
                                      budget: nat)
    requires EventsFile in original && UnderWay(files, key, d, original) && files.dirs[d].manifest == Some(m)
    requires i <= |m.planned| && Arrived(files, d, m.planned, i)
    ensures var r := MoveFrom(files, d, m, i, budget);
            && OthersKept(files, r.files, d) && r.files.marker == files.marker
            && (r.outcome == Crashed || r.outcome == Done(d))
            && (r.outcome == Crashed ==> UnderWay(r.files, key, d, original))
            && (r.outcome == Done(d) ==> Finished(r.files, key, d, original))
            && (budget > 2 * (|m.planned| - i) ==> r.outcome == Done(d))
    decreases |m.planned| - i, 0
  {
    assert d in files.dirs;
    hide UnderWay, Finished, Arrived, MoveFrom, OthersKept, AfterRename, Noted, Persist, Interrupted,
        Planned, Rename;
    if i == |m.planned| {
      MoveEnds(files, key, d, original, m, budget);
    } else {
      var cost := if m.planned[i] in files.source then 1 else 0;
      if budget <= cost {
        MoveDies(files, key, d, original, m, i, budget);
      } else {
        MoveGoesOn(files, key, d, original, m, i, budget);
      }
    }
  }

  /** A move cut off at its i-th artifact. */
  lemma MoveDies(files: Files, key: Key, d: DirId, original: map<Name, Bytes>, m: Manifest, i: nat, budget: nat)
    requires EventsFile in original && UnderWay(files, key, d, original) && files.dirs[d].manifest == Some(m)
    requires i < |m.planned| && Arrived(files, d, m.planned, i)
    requires budget <= if m.planned[i] in files.source then 1 else 0
    ensures var r := MoveFrom(files, d, m, i, budget);
            && OthersKept(files, r.files, d) && r.files.marker == files.marker
            && r.outcome == Crashed && UnderWay(r.files, key, d, original)
  {
    assert d in files.dirs;
    OneMove(files, key, d, original, m, i);
    MoveFromStep(files, d, m, i, budget);
    OthersRefl(files, d);
    hide UnderWay, Finished, Arrived, MoveFrom, OthersKept, AfterRename, Noted, Persist, Interrupted, Planned, Rename;
  }

  /** A manifest that says it is complete lists every planned artifact as moved, whatever crashes went before. */
  lemma {:induction false} CompleteListsAll(files: Files, d: DirId, m: Manifest, i: nat, budget: nat)
    requires d in files.dirs && i <= |m.planned| && forall j | 0 <= j < i :: m.planned[j] in m.moved
    ensures var r := MoveFrom(files, d, m, i, budget);
            r.outcome == Done(d) ==>
              && d in r.files.dirs && r.files.dirs[d].manifest.Some?
              && r.files.dirs[d].manifest.value.state == Complete
              && r.files.dirs[d].manifest.value.planned == m.planned
              && forall name | name in m.planned :: name in r.files.dirs[d].manifest.value.moved
    decreases |m.planned| - i
  {
    if i < |m.planned| {
      var name := m.planned[i];
      var m' := Noted(m, name);
      assert name in m'.moved;
      var renamed := AfterRename(files, d, name);
      var cost := if name in files.source then 1 else 0;
      if budget > cost {
        CompleteListsAll(Persist(renamed, d, m'), d, m', i + 1, budget - cost - 1);
      }
    }
  }

  /** A move that gets past its i-th artifact. */
  lemma {:induction false} MoveGoesOn(files: Files, key: Key, d: DirId, original: map<Name, Bytes>, m: Manifest, i: nat,
                                      budget: nat)
    requires EventsFile in original && UnderWay(files, key, d, original) && files.dirs[d].manifest == Some(m)
    requires i < |m.planned| && Arrived(files, d, m.planned, i)
    requires budget > if m.planned[i] in files.source then 1 else 0
    ensures var r := MoveFrom(files, d, m, i, budget);
            && OthersKept(files, r.files, d) && r.files.marker == files.marker
            && (r.outcome == Crashed || r.outcome == Done(d))
            && (r.outcome == Crashed ==> UnderWay(r.files, key, d, original))
            && (r.outcome == Done(d) ==> Finished(r.files, key, d, original))
            && (budget > 2 * (|m.planned| - i) ==> r.outcome == Done(d))
    decreases |m.planned| - i - 1, 2
  {
    assert d in files.dirs;
    hide *;
    OneMove(files, key, d, original, m, i);
    MoveFromStep(files, d, m, i, budget);
    RestOfMove(files, key, d, original, m, i, budget - 1 - if m.planned[i] in files.source then 1 else 0);
  }

  /** The move behind its i-th artifact. */
  lemma {:induction false} RestOfMove(files: Files, key: Key, d: DirId, original: map<Name, Bytes>, m: Manifest, i: nat,
                                      budget: nat)
    requires EventsFile in original && UnderWay(files, key, d, original) && files.dirs[d].manifest == Some(m)
    requires i < |m.planned| && Arrived(files, d, m.planned, i)
    ensures var noted := Persist(AfterRename(files, d, m.planned[i]), d, Noted(m, m.planned[i]));
            var r := MoveFrom(noted, d, Noted(m, m.planned[i]), i + 1, budget);
            && OthersKept(files, r.files, d) && r.files.marker == files.marker
            && (r.outcome == Crashed || r.outcome == Done(d))
            && (r.outcome == Crashed ==> UnderWay(r.files, key, d, original))
            && (r.outcome == Done(d) ==> Finished(r.files, key, d, original))
            && (budget > 2 * (|m.planned| - i - 1) ==> r.outcome == Done(d))
    decreases |m.planned| - i - 1, 1
  {
    assert d in files.dirs;
    NoteMove(files, key, d, original, m, i);
    var m' := Noted(m, m.planned[i]);
    var noted := Persist(AfterRename(files, d, m.planned[i]), d, m');
    MoveIsSafe(noted, key, d, original, m', i + 1, budget);
    OthersTrans(files, noted, MoveFrom(noted, d, m', i + 1, budget).files, d);
    hide *;
  }

  lemma MoveFromStep(files: Files, d: DirId, m: Manifest, i: nat, budget: nat)
    requires d in files.dirs && i < |m.planned| && (m.planned[i] in files.source <==>
                                                    m.planned[i] !in files.dirs[d].files)
    ensures var name := m.planned[i];
            var cost := if name in files.source then 1 else 0;
            MoveFrom(files, d, m, i, budget)
            == if budget < cost then Result(files, Crashed)
               else if budget == cost then Result(AfterRename(files, d, name), Crashed)
               else MoveFrom(Persist(AfterRename(files, d, name), d, Noted(m, name)), d, Noted(m, name), i + 1,
                             budget - cost - 1)
  {
  }

  lemma OthersRefl(files: Files, d: DirId)
    ensures OthersKept(files, files, d)
  {
  }

  lemma OthersTrans(a: Files, b: Files, c: Files, d: DirId)
    requires OthersKept(a, b, d) && OthersKept(b, c, d)
    ensures OthersKept(a, c, d)
  {
  }

  lemma MarkedMoveIsSafe(files: Files, key: Key, d: DirId, original: map<Name, Bytes>, budget: nat)
    requires EventsFile in original && UnderWay(files, key, d, original)
        && (files.marker == None || files.marker == Some(key))
    ensures var r := MarkThenMove(files, key, d, files.dirs[d].manifest.value, budget);
            && OthersKept(files, r.files, d) && Phase(r.files, key, original)
            && (r.outcome == Crashed || r.outcome == Done(d))
            && (r.outcome == Done(d) ==> Finished(r.files, key, d, original))
            && (budget > 5 ==> r.outcome == Done(d))
  {
    var m := files.dirs[d].manifest.value;
    var marked := if files.marker.Some? then files else files.(marker := Some(key));
    MarkKeeps(files, key, d, original);
    hide UnderWay, Finished, MoveFrom, Interrupted, Planned;
    NothingArrived(marked, d, m.planned);
    OthersRefl(files, d);
    if files.marker.Some? || budget > 0 {
      MoveIsSafe(marked, key, d, original, m, 0, if files.marker.Some? then budget else budget - 1);
      hide OthersKept;
    }
  }

  lemma MarkKeeps(files: Files, key: Key, d: DirId, original: map<Name, Bytes>)
    requires EventsFile in original && UnderWay(files, key, d, original)
    ensures UnderWay(files.(marker := Some(key)), key, d, original)
    ensures files.dirs[d].manifest.value.planned == Planned(original) && |Planned(original)| <= 2
  {
  }

  lemma NothingArrived(files: Files, d: DirId, planned: seq<Name>)
    requires d in files.dirs
    ensures Arrived(files, d, planned, 0)
  {
  }

  predicate Lists(files: Files, order: seq<DirId>) {
    forall d | d in files.dirs :: d in order
  }

  /** Recovery finds the interrupted directory in whatever order the directories are listed. */
  lemma {:induction false} RecoverFinds(files: Files, key: Key, d: DirId, order: seq<DirId>, budget: nat)
    requires Interrupted(files, key, d) && OnlyInterrupted(files, key, d) && d in order
    ensures Recover(files, key, order, budget) == MarkThenMove(files, key, d, files.dirs[d].manifest.value, budget)
  {
    if order[0] != d {
      assert d in order[1..];
      RecoverFinds(files, key, d, order[1..], budget);
    }
  }

  /** A fresh attempt from the beginning. */
  lemma FreshAttempt(files: Files, key: Key, original: map<Name, Bytes>, order: seq<DirId>, newDir: DirId, budget: nat)
    requires EventsFile in original && NotStarted(files, key, original)
        && (files.marker == None || files.marker == Some(key))
    requires newDir !in files.dirs
    ensures var r := Quarantined(files, key, order, newDir, true, budget);
            && OthersKept(files, r.files, newDir) && Phase(r.files, key, original)
            && (r.outcome == Crashed || r.outcome == Done(newDir))
            && (r.outcome == Done(newDir) ==> Finished(r.files, key, newDir, original))
            && (budget > 7 ==> r.outcome == Done(newDir))
  {
    RecoverNothing(files, key, order, budget);
    if budget > 0 {
      var made := files.(dirs := files.dirs[newDir := Dir(None, map[])]);
      assert NotStarted(made, key, original);
      if budget > 1 {
        var m := Manifest(key, Moving, Planned(files.source), []);
        var begun := Persist(made, newDir, m);
        assert UnderWay(begun, key, newDir, original);
        MarkedMoveIsSafe(begun, key, newDir, original, budget - 2);
      }
    }
  }

  /** One attempt from any state a crash can leave: either it has nothing to move any more, or it makes no error, keeps
      every byte where it can be found, and with enough budget finishes. */
  lemma AttemptIsSafe(files: Files, key: Key, original: map<Name, Bytes>, order: seq<DirId>, newDir: DirId, budget: nat)
    requires Phase(files, key, original) && Lists(files, order) && newDir !in files.dirs
    ensures var r := Quarantined(files, key, order, newDir, true, budget);
            && Phase(r.files, key, original)
            && (if exists d :: Finished(files, key, d, original) then r == Result(files, Failed(NoEventsFile))
                else
                  && !r.outcome.Failed? && r.outcome != Nothing
                  && (r.outcome.Done? ==> Finished(r.files, key, r.outcome.dir, original))
                  && (budget > 7 ==> r.outcome.Done?))
  {
    if NotStarted(files, key, original) {
      FreshAttempt(files, key, original, order, newDir, budget);
      assert files.source == original;
    } else if d :| UnderWay(files, key, d, original) {
      RecoverFinds(files, key, d, order, budget);
      MarkedMoveIsSafe(files, key, d, original, budget);
      assert files.source != map[] || files.dirs[d].manifest.value.state == Moving;
    } else {
      RecoverNothing(files, key, order, budget);
    }
  }

  /** A stand-alone recovery from any state a crash can leave: it finishes what is interrupted, and touches nothing
      otherwise. */
  lemma RecoveryIsSafe(files: Files, key: Key, original: map<Name, Bytes>, order: seq<DirId>, budget: nat)
    requires Phase(files, key, original) && Lists(files, order)
    ensures var r := Recover(files, key, order, budget);
            && Phase(r.files, key, original) && !r.outcome.Failed?
            && (r.outcome == Nothing <==> forall d | d in files.dirs :: !Interrupted(files, key, d))
            && (r.outcome == Nothing ==> r.files == files)
            && (r.outcome.Done? ==> Finished(r.files, key, r.outcome.dir, original))
            && (budget > 5 ==> forall d | d in r.files.dirs :: !Interrupted(r.files, key, d))
  {
    RecoverNothing(files, key, order, budget);
    if d :| UnderWay(files, key, d, original) {
      RecoverFinds(files, key, d, order, budget);
      MarkedMoveIsSafe(files, key, d, original, budget);
    }
  }

  /** An attempt while the ledger's coverage does not allow a quarantine: it only finishes what is interrupted. */
  lemma RefusedIsRecovery(files: Files, key: Key, order: seq<DirId>, newDir: DirId, budget: nat)
    ensures Quarantined(files, key, order, newDir, false, budget).files == Recover(files, key, order, budget).files
  {
    RecoverNothing(files, key, order, budget);
  }

  // ---------------------------------------------------------------- all runs

  /** A quarantine, allowed by the ledger's coverage or not, or a recovery on its own, each cut off after `budget`
      mutations. */
  datatype Attempt =
    | Quarantining(order: seq<DirId>, newDir: DirId, required: bool, budget: nat)
    | Recovering(order: seq<DirId>, budget: nat)

  function Perform(files: Files, key: Key, a: Attempt): Files {
    match a
    case Quarantining(order, newDir, required, budget) => Quarantined(files, key, order, newDir, required, budget).files
    case Recovering(order, budget) => Recover(files, key, order, budget).files
  }

  function Run(files: Files, key: Key, attempts: seq<Attempt>): Files
    decreases |attempts|
  {
    if attempts == [] then files else Run(Perform(files, key, attempts[0]), key, attempts[1..])
  }

  /** Every attempt lists the directories that are there and draws a new directory name. */
  predicate Proper(files: Files, key: Key, attempts: seq<Attempt>)
    decreases |attempts|
  {
    attempts != [] ==>
      && Lists(files, attempts[0].order) && (attempts[0].Quarantining? ==> attempts[0].newDir !in files.dirs)
      && Proper(Perform(files, key, attempts[0]), key, attempts[1..])
  }

  /** Nothing of the location is under way. */
  predicate NothingInterrupted(files: Files, key: Key) {
    forall d | d in files.dirs :: !Interrupted(files, key, d)
  }

  ghost predicate Archived(files: Files, key: Key, original: map<Name, Bytes>) {
    exists d :: Finished(files, key, d, original)
  }

  /** One step of a run. */
  lemma StepIsSafe(files: Files, key: Key, original: map<Name, Bytes>, a: Attempt)
    requires Phase(files, key, original) && Lists(files, a.order) && (a.Quarantining? ==> a.newDir !in files.dirs)
    ensures var files' := Perform(files, key, a);
            && Phase(files', key, original)
            && (Archived(files, key, original) ==> Archived(files', key, original))
            && (a.budget > 7 ==> NothingInterrupted(files', key)
                                 && (a.Quarantining? && a.required ==> Archived(files', key, original)))
  {
    hide Quarantined, Recover, Phase, Finished;
    RecoveryIsSafe(files, key, original, a.order, a.budget);
    ArchivedIsQuiet(files, key, original);
    if a.Quarantining? {
      RefusedIsRecovery(files, key, a.order, a.newDir, a.budget);
      if a.required {
        AttemptIsSafe(files, key, original, a.order, a.newDir, a.budget);
        ArchivedIsQuiet(Perform(files, key, a), key, original);
      }
    }
  }

  lemma ArchivedIsQuiet(files: Files, key: Key, original: map<Name, Bytes>)
    ensures Archived(files, key, original) ==> NothingInterrupted(files, key)
  {
  }

  /** Whatever the crash points of a series of quarantines and recoveries, the files stay in one of the known states, a
      completed quarantine stays complete, and a last step that is left alone leaves nothing interrupted; when it is an
      allowed quarantine, every artifact is in one archive with its original bytes. */
  lemma {:induction false} QuarantineSurvivesCrashes(files: Files, key: Key, original: map<Name, Bytes>,
                                                     attempts: seq<Attempt>)
    requires Phase(files, key, original) && Proper(files, key, attempts)
    ensures var files' := Run(files, key, attempts);
            && Phase(files', key, original)
            && (Archived(files, key, original) ==> Archived(files', key, original))
            && (attempts != [] && attempts[|attempts| - 1].budget > 7 ==>
                  && NothingInterrupted(files', key)
                  && (attempts[|attempts| - 1].Quarantining? && attempts[|attempts| - 1].required ==>
                      Archived(files', key, original)))
    decreases |attempts|
  {
    hide Phase, Perform, Archived, NothingInterrupted;
    if attempts != [] {
      StepIsSafe(files, key, original, attempts[0]);
      QuarantineSurvivesCrashes(Perform(files, key, attempts[0]), key, original, attempts[1..]);
      if |attempts| == 1 {
        assert Run(files, key, attempts) == Perform(files, key, attempts[0]);
      }
    }
  }
}

/**
 * What the processing chain guarantees about a record: the statuses it writes
 * follow the fixed forward order and stop at the first failure; an error in a
 * stage is logged under `Failed` with the stage's prefix and ends the chain; a
 * renaming error is not fatal; the chain never touches another record; and
 * every stored record keeps its id and its required fields.
 */
module PipelineProperties {
  import opened Wrappers
  import opened JsRuntime
  import opened DocumentModel
  import opened AiService
  import opened ControllerPolicy
  import opened Pipeline

  // ---------------------------------------------------------------------
  // Worlds, traces and the forward order
  // ---------------------------------------------------------------------

  /** Every stored record is filed under its own id and passes validation. */
  predicate ValidWorld(w: World) {
    forall k :: k in w.docs ==> w.docs[k].id == k && RequiredPresent(w.docs[k])
  }

  /** The statuses carried by a sequence of events, in order; deletions carry none. */
  function Statuses(es: seq<Event>): (ss: seq<Status>)
    ensures |ss| <= |es|
  {
    if es == [] then []
    else Statuses(es[..|es| - 1]) + (if es[|es| - 1].DocumentUpdated? then [es[|es| - 1].doc.status] else [])
  }

  lemma {:induction false} StatusesAppend(a: seq<Event>, b: seq<Event>)
    ensures Statuses(a + b) == Statuses(a) + Statuses(b)
    decreases |b|
  {
    if b == [] {
      assert a + b == a;
    } else {
      assert (a + b)[..|a + b| - 1] == a + b[..|b| - 1];
      StatusesAppend(a, b[..|b| - 1]);
    }
  }

  /** `w2` follows `w` by work on record `id` alone: the same users, every other
      record as it was, and a stored `id` still stored. */
  predicate Frame(w: World, w2: World, id: DocId) {
    && w2.users == w.users
    && (id in w.docs ==> id in w2.docs && w2.docs == w.docs[id := w2.docs[id]])
    && (id !in w.docs ==> w2.docs == w.docs)
  }

  /** Between `w` and `w2` the statuses `ss` were announced, in order. */
  predicate Wrote(w: World, w2: World, ss: seq<Status>) {
    Statuses(w2.events) == Statuses(w.events) + ss
  }

  lemma FrameRefl(w: World, id: DocId)
    ensures Frame(w, w, id) && Wrote(w, w, [])
  {
    if id in w.docs {
      assert w.docs[id := w.docs[id]] == w.docs;
    }
  }

  lemma FrameTrans(a: World, b: World, c: World, id: DocId, s1: seq<Status>, s2: seq<Status>)
    requires Frame(a, b, id) && Frame(b, c, id) && Wrote(a, b, s1) && Wrote(b, c, s2)
    ensures Frame(a, c, id) && Wrote(a, c, s1 + s2)
  {
    if id in a.docs {
      assert c.docs == a.docs[id := b.docs[id]][id := c.docs[id]];
      assert a.docs[id := b.docs[id]][id := c.docs[id]] == a.docs[id := c.docs[id]];
    }
    assert Statuses(a.events) + s1 + s2 == Statuses(a.events) + (s1 + s2);
  }

  /** The order in which a successful run writes its statuses. */
  const ForwardOrder: seq<Status> := [
    Ingested, ExtractionPending, Extracted, ClassificationPending, Classified,
    DataExtractionPending, DataExtracted, SentimentPending, Analyzed,
    RenamingPending, Renamed, RoutingPending, Routed]

  /** `ss` follows the forward order from position `i` on, and stops there or
      at one `Failed`. */
  predicate ForwardRun(ss: seq<Status>, i: nat)
    decreases |ss|
  {
    || ss == []
    || ss == [Failed]
    || (i < |ForwardOrder| && ss[0] == ForwardOrder[i] && ForwardRun(ss[1..], i + 1))
  }

  /** What a forward run is, written out: a stretch of the forward order from
      position `i`, possibly cut short by one final `Failed`. */
  lemma ForwardRunMeaning(ss: seq<Status>, i: nat)
    requires i <= |ForwardOrder|
    ensures ForwardRun(ss, i) <==> ForwardPrefix(ss, i) || FailedPrefix(ss, i)
  {
    if ForwardRun(ss, i) {
      ForwardRunIsPrefix(ss, i);
    }
    if ForwardPrefix(ss, i) || FailedPrefix(ss, i) {
      PrefixIsForwardRun(ss, i);
    }
  }

  lemma {:induction false} ForwardRunIsPrefix(ss: seq<Status>, i: nat)
    requires i <= |ForwardOrder| && ForwardRun(ss, i)
    ensures ForwardPrefix(ss, i) || FailedPrefix(ss, i)
    decreases |ss|
  {
    if ss != [] && ss != [Failed] {
      ForwardRunIsPrefix(ss[1..], i + 1);
      PrefixCons(ss, i);
    }
  }

  lemma {:induction false} PrefixIsForwardRun(ss: seq<Status>, i: nat)
    requires i <= |ForwardOrder| && (ForwardPrefix(ss, i) || FailedPrefix(ss, i))
    ensures ForwardRun(ss, i)
    decreases |ss|
  {
    if ss != [] && ss != [Failed] {
      PrefixTail(ss, i);
      PrefixIsForwardRun(ss[1..], i + 1);
    }
  }

  /** The forward order's status at `i` before a stretch from `i + 1` is a stretch from `i`. */
  lemma PrefixCons(ss: seq<Status>, i: nat)
    requires ss != [] && i < |ForwardOrder| && ss[0] == ForwardOrder[i]
    requires ForwardPrefix(ss[1..], i + 1) || FailedPrefix(ss[1..], i + 1)
    ensures ForwardPrefix(ss, i) || FailedPrefix(ss, i)
  {
    if ForwardPrefix(ss[1..], i + 1) {
      assert ss[1..] == ForwardOrder[i + 1..i + |ss|] + [];
      ConsSlice(ss, ForwardOrder, i, []);
      assert ss == ForwardOrder[i..i + |ss|] + [];
    } else {
      ConsSlice(ss, ForwardOrder, i, [Failed]);
    }
  }

  /** A stretch from `i` other than a lone `Failed` starts with the forward
      order's status at `i`, followed by a stretch from `i + 1`. */
  lemma PrefixTail(ss: seq<Status>, i: nat)
    requires ss != [] && ss != [Failed] && i <= |ForwardOrder|
    requires ForwardPrefix(ss, i) || FailedPrefix(ss, i)
    ensures i < |ForwardOrder| && ss[0] == ForwardOrder[i]
    ensures ForwardPrefix(ss[1..], i + 1) || FailedPrefix(ss[1..], i + 1)
  {
    if ForwardPrefix(ss, i) {
      assert ss == ForwardOrder[i..i + |ss|] + [];
      UnconsSlice(ss, ForwardOrder, i, []);
      assert ss[1..] == ForwardOrder[i + 1..i + |ss|] + [];
    } else {
      UnconsSlice(ss, ForwardOrder, i, [Failed]);
    }
  }

  /** A head `o[i]` before a stretch of `o` from `i + 1`, followed by `f`, is
      the stretch of `o` from `i`, followed by `f`. */
  lemma ConsSlice<T>(ss: seq<T>, o: seq<T>, i: nat, f: seq<T>)
    requires |f| < |ss| && i + |ss| - |f| <= |o| && ss[0] == o[i]
    requires ss[1..] == o[i + 1..i + |ss| - |f|] + f
    ensures ss == o[i..i + |ss| - |f|] + f
  {
    var k := i + |ss| - |f|;
    assert o[i..k] == [o[i]] + o[i + 1..k];
    assert ss == [ss[0]] + ss[1..];
    Associative([o[i]], o[i + 1..k], f);
  }

  /** The converse: such a stretch followed by `f` splits into its head and
      the stretch from `i + 1` followed by `f`. */
  lemma UnconsSlice<T>(ss: seq<T>, o: seq<T>, i: nat, f: seq<T>)
    requires |f| < |ss| && i + |ss| - |f| <= |o|
    requires ss == o[i..i + |ss| - |f|] + f
    ensures ss[0] == o[i] && ss[1..] == o[i + 1..i + |ss| - |f|] + f
  {
    var k := i + |ss| - |f|;
    assert o[i..k] == [o[i]] + o[i + 1..k];
    Associative([o[i]], o[i + 1..k], f);
  }

  /** `ss` is the stretch of the forward order from position `i`. */
  predicate ForwardPrefix(ss: seq<Status>, i: nat) {
    i + |ss| <= |ForwardOrder| && ss == ForwardOrder[i..i + |ss|]
  }

  /** `ss` is a stretch of the forward order from position `i` and one final `Failed`. */
  predicate FailedPrefix(ss: seq<Status>, i: nat) {
    ss != [] && i + |ss| - 1 <= |ForwardOrder| && ss == ForwardOrder[i..i + |ss| - 1] + [Failed]
  }

  lemma ForwardRunCons(x: Status, ss: seq<Status>, i: nat)
    requires i < |ForwardOrder| && x == ForwardOrder[i] && ForwardRun(ss, i + 1)
    ensures ForwardRun([x] + ss, i)
  {
    assert ([x] + ss)[1..] == ss;
  }

  /** Two statuses of the forward order before a forward run keep it a forward run. */
  lemma ForwardRunPrepend2(ss: seq<Status>, i: nat)
    requires i + 1 < |ForwardOrder| && ForwardRun(ss, i + 2)
    ensures ForwardRun([ForwardOrder[i], ForwardOrder[i + 1]] + ss, i)
  {
    ForwardRunCons(ForwardOrder[i + 1], ss, i + 1);
    ForwardRunCons(ForwardOrder[i], [ForwardOrder[i + 1]] + ss, i);
    assert [ForwardOrder[i]] + ([ForwardOrder[i + 1]] + ss) == [ForwardOrder[i], ForwardOrder[i + 1]] + ss;
  }

  /** A forward run from position `i` that ends in `Routed` is the whole rest of
      the forward order: every status from `i` on was written, in order, with no failure. */
  lemma {:induction false} ForwardRunEndingRouted(ss: seq<Status>, i: nat)
    requires ForwardRun(ss, i) && ss != [] && ss[|ss| - 1] == Routed
    ensures i < |ForwardOrder| && ss == ForwardOrder[i..]
    decreases |ss|
  {
    assert ss != [Failed];
    assert ss[0] == ForwardOrder[i];
    if |ss| == 1 {
      assert ForwardOrder[i] == Routed;
      assert i == |ForwardOrder| - 1;
    } else {
      ForwardRunEndingRouted(ss[1..], i + 1);
      assert ss == [ss[0]] + ss[1..];
    }
  }

  /** The statuses announced between `w` and `w2`. */
  function Written(w: World, w2: World): seq<Status> {
    var before := Statuses(w.events);
    var after := Statuses(w2.events);
    if |before| <= |after| then after[|before|..] else []
  }

  lemma WrittenOf(w: World, w2: World, ss: seq<Status>)
    requires Wrote(w, w2, ss)
    ensures Written(w, w2) == ss
  {
    assert (Statuses(w.events) + ss)[|Statuses(w.events)|..] == ss;
  }

  // ---------------------------------------------------------------------
  // One call of updateDocumentProgress
  // ---------------------------------------------------------------------

  /** A successful update works on its record alone, keeps the world valid and
      announces exactly its status. */
  lemma ProgressStep(w: World, id: DocId, status: Status, msg: string, patch: Patch, now: int)
    requires ValidWorld(w) && id in w.docs
    requires Progress(w, id, status, msg, patch, now).Ok?
    ensures var w2 := Progress(w, id, status, msg, patch, now).value;
      Frame(w, w2, id) && ValidWorld(w2) && Wrote(w, w2, [status])
  {
    var w2 := Progress(w, id, status, msg, patch, now).value;
    assert w2.events[..|w2.events| - 1] == w.events;
  }

  /** An update that assigns no fields cannot fail on a valid world. */
  lemma ProgressWithoutPatch(w: World, id: DocId, status: Status, msg: string, now: int)
    requires ValidWorld(w) && id in w.docs
    ensures Progress(w, id, status, msg, NoPatch, now).Ok?
  {
    AssignNothing(Stamp(w.docs[id], status, msg, now));
    ProgressOutcome(w, id, status, msg, NoPatch, now);
  }

  /** A patch that assigns no name, or a non-empty one, keeps a valid record's name present. */
  predicate NameStaysPresent(p: Patch) {
    p.originalName.Some? ==> p.originalName.value != ""
  }

  /** An update whose fields cast and that keeps a name cannot fail on a valid world. */
  lemma ProgressKeepingNames(w: World, id: DocId, status: Status, msg: string, patch: Patch, now: int)
    requires ValidWorld(w) && id in w.docs && NameStaysPresent(patch)
    requires Assign(Stamp(w.docs[id], status, msg, now), patch).Ok?
    ensures Progress(w, id, status, msg, patch, now).Ok?
  {
    AssignMerges(Stamp(w.docs[id], status, msg, now), patch);
    ProgressOutcome(w, id, status, msg, patch, now);
  }

  /** A catch block's update always goes through on a valid world: the record is
      `Failed` with the message as its last log entry. */
  lemma FailStep(w: World, id: DocId, msg: string, now: int)
    requires ValidWorld(w) && id in w.docs && msg != ""
    ensures var w2 := Fail(w, id, msg, now);
      && Frame(w, w2, id) && ValidWorld(w2) && Wrote(w, w2, [Failed])
      && w2.docs[id].status == Failed
      && w2.docs[id].logs == w.docs[id].logs + [LogEntry(now, msg)]
      && w2.events == w.events + [DocumentUpdated(w2.docs[id])]
  {
    ProgressWithoutPatch(w, id, Failed, msg, now);
    ProgressStep(w, id, Failed, msg, NoPatch, now);
  }

  // ---------------------------------------------------------------------
  // The try blocks
  // ---------------------------------------------------------------------

  /** What a `try` block with statuses `pending` and `done` leaves: it worked on
      record `id` alone, kept the world valid, and announced `pending` and, when
      it ran to its end, `done`. */
  predicate TryShape(w: World, a: Attempt, id: DocId, pending: Status, done: Status) {
    && Frame(w, a.world, id) && ValidWorld(a.world) && id in a.world.docs
    && (a.Done? ==> Wrote(w, a.world, [pending, done]))
    && (a.Threw? ==> Wrote(w, a.world, [pending]) || Wrote(w, a.world, [pending, done]))
  }

  /** Every `try` block has that shape; without a late throw, a throw leaves
      only the pending status. */
  lemma AttemptedShape(w: World, id: DocId, pending: Status, pendingMsg: string,
                       work: Outcome<Step>, late: Option<string>, now: int, done: Status)
    requires ValidWorld(w) && id in w.docs
    requires work.Ok? ==> work.value.status == done
    ensures TryShape(w, Attempted(w, id, pending, pendingMsg, work, late, now), id, pending, done)
    ensures var a := Attempted(w, id, pending, pendingMsg, work, late, now);
      a.Threw? && late.None? ==> Wrote(w, a.world, [pending])
  {
    ProgressWithoutPatch(w, id, pending, pendingMsg, now);
    var w1 := Progress(w, id, pending, pendingMsg, NoPatch, now).value;
    ProgressStep(w, id, pending, pendingMsg, NoPatch, now);
    var a := Attempted(w, id, pending, pendingMsg, work, late, now);
    if work.Ok? && Progress(w1, id, work.value.status, work.value.msg, work.value.patch, now).Ok? {
      var w2 := Progress(w1, id, work.value.status, work.value.msg, work.value.patch, now).value;
      assert a.world == w2;
      ProgressStep(w1, id, work.value.status, work.value.msg, work.value.patch, now);
      FrameTrans(w, w1, w2, id, [pending], [work.value.status]);
    } else {
      assert a.Threw? && a.world == w1;
    }
  }

  /** A `try` block whose work throws `m` on a valid world throws `m` right
      after saving the pending status. */
  lemma AttemptedThrowsInWork(w: World, id: DocId, pending: Status, pendingMsg: string,
                              work: Outcome<Step>, late: Option<string>, now: int)
    ensures ValidWorld(w) && id in w.docs && work.Err? ==>
      var w1 := Progress(w, id, pending, pendingMsg, NoPatch, now).value;
      && Progress(w, id, pending, pendingMsg, NoPatch, now).Ok?
      && Attempted(w, id, pending, pendingMsg, work, late, now) == Threw(w1, work.message)
      && Frame(w, w1, id) && ValidWorld(w1) && Wrote(w, w1, [pending])
  {
    if ValidWorld(w) && id in w.docs && work.Err? {
      ProgressWithoutPatch(w, id, pending, pendingMsg, now);
      ProgressStep(w, id, pending, pendingMsg, NoPatch, now);
    }
  }

  /** The pending save of a `try` block cannot fail on a valid world; it
      changes the status, the log and `updatedAt` alone. */
  lemma PendingSaved(w: World, id: DocId, pending: Status, pendingMsg: string, now: int)
    ensures ValidWorld(w) && id in w.docs ==>
      var r := Progress(w, id, pending, pendingMsg, NoPatch, now);
      && r.Ok? && Frame(w, r.value, id) && ValidWorld(r.value) && Wrote(w, r.value, [pending])
      && r.value.docs[id] == Stamp(w.docs[id], pending, pendingMsg, now).(updatedAt := now)
  {
    if ValidWorld(w) && id in w.docs {
      ProgressWithoutPatch(w, id, pending, pendingMsg, now);
      ProgressStep(w, id, pending, pendingMsg, NoPatch, now);
    }
  }

  /** The done save of a `try` block whose fields cast and which leaves the
      name alone goes through on a valid world and merges the fields in. */
  lemma DoneSaved(w: World, id: DocId, step: Step, now: int)
    ensures ValidWorld(w) && id in w.docs && NameStaysPresent(step.patch) && Assign(w.docs[id], step.patch).Ok? ==>
      var r := Progress(w, id, step.status, step.msg, step.patch, now);
      && r.Ok? && Frame(w, r.value, id) && ValidWorld(r.value) && Wrote(w, r.value, [step.status])
      && r.value.docs[id].status == step.status && Merged(w.docs[id], step.patch, r.value.docs[id])
  {
    if ValidWorld(w) && id in w.docs && NameStaysPresent(step.patch) && Assign(w.docs[id], step.patch).Ok? {
      ProgressKeepingNames(w, id, step.status, step.msg, step.patch, now);
      ProgressOutcome(w, id, step.status, step.msg, step.patch, now);
      ProgressStep(w, id, step.status, step.msg, step.patch, now);
    }
  }

  /** A `try` block whose two saves go through ends with the second one's
      world, or throws the late error from there. */
  lemma AttemptedOfSaves(w: World, id: DocId, pending: Status, pendingMsg: string,
                         step: Step, late: Option<string>, now: int)
    ensures var p1 := Progress(w, id, pending, pendingMsg, NoPatch, now);
      p1.Ok? && Progress(p1.value, id, step.status, step.msg, step.patch, now).Ok? ==>
      var w2 := Progress(p1.value, id, step.status, step.msg, step.patch, now).value;
      Attempted(w, id, pending, pendingMsg, Ok(step), late, now) == (if late.None? then Done(w2) else Threw(w2, late.value))
  {
  }

  /** A `try` block whose work yields `step`, whose fields cast and which
      leaves the name alone, saves both statuses on a valid world and merges
      the step's fields in; it then ends, or throws the late error. */
  lemma AttemptedCompletes(w: World, id: DocId, pending: Status, pendingMsg: string,
                           step: Step, late: Option<string>, now: int)
    ensures ValidWorld(w) && id in w.docs && NameStaysPresent(step.patch) && Assign(w.docs[id], step.patch).Ok? ==>
      var a := Attempted(w, id, pending, pendingMsg, Ok(step), late, now);
      && (late.None? ==> a.Done?) && (late.Some? ==> a == Threw(a.world, late.value))
      && Frame(w, a.world, id) && ValidWorld(a.world) && Wrote(w, a.world, [pending, step.status])
      && id in a.world.docs && a.world.docs[id].status == step.status
      && Merged(Stamp(w.docs[id], pending, pendingMsg, now).(updatedAt := now), step.patch, a.world.docs[id])
  {
    if ValidWorld(w) && id in w.docs && NameStaysPresent(step.patch) && Assign(w.docs[id], step.patch).Ok? {
      PendingSaved(w, id, pending, pendingMsg, now);
      var w1 := Progress(w, id, pending, pendingMsg, NoPatch, now).value;
      DoneSaved(w1, id, step, now);
      AttemptedOfSaves(w, id, pending, pendingMsg, step, late, now);
      var w2 := Progress(w1, id, step.status, step.msg, step.patch, now).value;
      FrameTrans(w, w1, w2, id, [pending], [step.status]);
      assert [pending] + [step.status] == [pending, step.status];
      assert Attempted(w, id, pending, pendingMsg, Ok(step), late, now).world == w2;
    }
  }

  // The `try` block of each stage has the shape, with its own statuses.

  lemma TryExtractionShape(w: World, id: DocId, env: Env)
    ensures ValidWorld(w) && id in w.docs ==>
      TryShape(w, TryExtraction(w, id, env), id, ExtractionPending, Extracted)
  {
    if ValidWorld(w) && id in w.docs {
      AttemptedShape(w, id, ExtractionPending, "Starting text extraction...", ExtractionWork(w.docs[id], env), None, env.now, Extracted);
    }
  }

  lemma TryClassificationShape(w: World, id: DocId, env: Env)
    ensures ValidWorld(w) && id in w.docs ==>
      TryShape(w, TryClassification(w, id, env), id, ClassificationPending, Classified)
  {
    if ValidWorld(w) && id in w.docs {
      AttemptedShape(w, id, ClassificationPending, "Classifying document...", ClassificationWork(w.docs[id], env), None, env.now, Classified);
    }
  }

  lemma TryDataExtractionShape(w: World, id: DocId, env: Env)
    ensures ValidWorld(w) && id in w.docs ==>
      TryShape(w, TryDataExtraction(w, id, env), id, DataExtractionPending, DataExtracted)
  {
    if ValidWorld(w) && id in w.docs {
      AttemptedShape(w, id, DataExtractionPending, "Extracting structured data...", DataExtractionWork(w.docs[id], env), None, env.now, DataExtracted);
    }
  }

  lemma TrySentimentShape(w: World, id: DocId, env: Env)
    ensures ValidWorld(w) && id in w.docs ==>
      TryShape(w, TrySentiment(w, id, env), id, SentimentPending, Analyzed)
  {
    if ValidWorld(w) && id in w.docs {
      AttemptedShape(w, id, SentimentPending, "Analyzing sentiment...", SentimentWork(w.docs[id], env), None, env.now, Analyzed);
    }
  }

  /** Renaming has nothing after its last save, so a throw left only the pending status. */
  lemma TryRenamingShape(w: World, id: DocId, env: Env)
    ensures ValidWorld(w) && id in w.docs ==>
      TryShape(w, TryRenaming(w, id, env), id, RenamingPending, Renamed)
    ensures ValidWorld(w) && id in w.docs && TryRenaming(w, id, env).Threw? ==>
      Wrote(w, TryRenaming(w, id, env).world, [RenamingPending])
  {
    if ValidWorld(w) && id in w.docs {
      AttemptedShape(w, id, RenamingPending, "Generating new filename...", RenamingWork(w.docs[id]), None, env.now, Renamed);
    }
  }

  lemma TryRoutingShape(w: World, id: DocId, env: Env)
    ensures ValidWorld(w) && id in w.docs ==>
      TryShape(w, TryRouting(w, id, env), id, RoutingPending, Routed)
  {
    if ValidWorld(w) && id in w.docs {
      AttemptedShape(w, id, RoutingPending, "Applying routing rules...", RoutingWork(w.docs[id]),
                     NotificationFailure(w, w.docs[id]), env.now, Routed);
    }
  }

  /** The non-fatal catch block of renaming: after a throw that left only the
      pending status, the `Renamed` entry always goes through, and the two
      together have the shape of a `try` block that ran to its end. */
  lemma RenamingRecoveryShape(w: World, a: Attempt, id: DocId, msg: string, now: int)
    ensures TryShape(w, a, id, RenamingPending, Renamed) && a.Threw? && Wrote(w, a.world, [RenamingPending]) ==>
      var p := Progress(a.world, id, Renamed, msg, NoPatch, now);
      p.Ok? && TryShape(w, Done(p.value), id, RenamingPending, Renamed)
  {
    if TryShape(w, a, id, RenamingPending, Renamed) && a.Threw? && Wrote(w, a.world, [RenamingPending]) {
      ProgressWithoutPatch(a.world, id, Renamed, msg, now);
      ProgressStep(a.world, id, Renamed, msg, NoPatch, now);
      FrameTrans(w, a.world, Progress(a.world, id, Renamed, msg, NoPatch, now).value, id, [RenamingPending], [Renamed]);
    }
  }

  // ---------------------------------------------------------------------
  // The stages: forward order, locality, validity
  // ---------------------------------------------------------------------

  /** What every stage lemma below promises, for a stage whose pending status is
      at `i`: it worked on `id` alone, kept the world valid, and the statuses it
      announced are a forward run from `i`. */
  predicate StageShape(w: World, w2: World, id: DocId, i: nat) {
    Frame(w, w2, id) && ValidWorld(w2) && Wrote(w, w2, Written(w, w2)) && ForwardRun(Written(w, w2), i)
  }

  /** A stage that does nothing has that shape. */
  lemma StageShapeRefl(w: World, id: DocId, i: nat)
    ensures ValidWorld(w) ==> StageShape(w, w, id, i)
  {
    FrameRefl(w, id);
    WrittenOf(w, w, []);
  }

  /** The shape a `try` block leaves, followed by the catch block's `Failed` or by
      a rest of the chain that runs forward, runs forward. */
  lemma ThenFailOrRest(w: World, a: Attempt, id: DocId, prefix: string, now: int, i: nat, rest: World)
    ensures prefix != "" && i + 1 < |ForwardOrder| && TryShape(w, a, id, ForwardOrder[i], ForwardOrder[i + 1])
      && (a.Done? ==> StageShape(a.world, rest, id, i + 2))
      ==> StageShape(w, if a.Done? then rest else Fail(a.world, id, prefix + a.message, now), id, i)
  {
    if prefix != "" && i + 1 < |ForwardOrder| && TryShape(w, a, id, ForwardOrder[i], ForwardOrder[i + 1])
       && (a.Done? ==> StageShape(a.world, rest, id, i + 2)) {
      if a.Done? {
        var tail := Written(a.world, rest);
        FrameTrans(w, a.world, rest, id, [ForwardOrder[i], ForwardOrder[i + 1]], tail);
        WrittenOf(w, rest, [ForwardOrder[i], ForwardOrder[i + 1]] + tail);
        ForwardRunPrepend2(tail, i);
      } else {
        var w2 := Fail(a.world, id, prefix + a.message, now);
        FailStep(a.world, id, prefix + a.message, now);
        if Wrote(w, a.world, [ForwardOrder[i]]) {
          FrameTrans(w, a.world, w2, id, [ForwardOrder[i]], [Failed]);
          WrittenOf(w, w2, [ForwardOrder[i]] + [Failed]);
          ForwardRunCons(ForwardOrder[i], [Failed], i);
        } else {
          FrameTrans(w, a.world, w2, id, [ForwardOrder[i], ForwardOrder[i + 1]], [Failed]);
          WrittenOf(w, w2, [ForwardOrder[i], ForwardOrder[i + 1]] + [Failed]);
          ForwardRunPrepend2([Failed], i);
        }
      }
    }
  }

  /** The positions of the statuses in the forward order. */
  lemma ForwardOrderPositions()
    ensures |ForwardOrder| == 13
    ensures ForwardOrder[1] == ExtractionPending && ForwardOrder[2] == Extracted
    ensures ForwardOrder[3] == ClassificationPending && ForwardOrder[4] == Classified
    ensures ForwardOrder[5] == DataExtractionPending && ForwardOrder[6] == DataExtracted
    ensures ForwardOrder[7] == SentimentPending && ForwardOrder[8] == Analyzed
    ensures ForwardOrder[9] == RenamingPending && ForwardOrder[10] == Renamed
    ensures ForwardOrder[11] == RoutingPending && ForwardOrder[12] == Routed
  {
  }

  // The stages call one another by name; these restate each stage lemma for that call.

  lemma ClassificationCallRunsForward(w: World, id: DocId, env: Env)
    ensures ValidWorld(w) ==> StageShape(w, RunStage(Classification, w, id, env), id, 3)
  {
    ClassificationRunsForward(w, id, env);
  }

  lemma DataExtractionCallRunsForward(w: World, id: DocId, env: Env)
    ensures ValidWorld(w) ==> StageShape(w, RunStage(DataExtraction, w, id, env), id, 5)
  {
    DataExtractionRunsForward(w, id, env);
  }

  lemma SentimentCallRunsForward(w: World, id: DocId, env: Env)
    ensures ValidWorld(w) ==> StageShape(w, RunStage(SentimentAnalysis, w, id, env), id, 7)
  {
    SentimentRunsForward(w, id, env);
  }

  lemma RenamingCallRunsForward(w: World, id: DocId, env: Env)
    ensures ValidWorld(w) ==> StageShape(w, RunStage(FileRenaming, w, id, env), id, 9)
  {
    RenamingRunsForward(w, id, env);
  }

  lemma RoutingCallRunsForward(w: World, id: DocId, env: Env)
    ensures ValidWorld(w) ==> StageShape(w, RunStage(Routing, w, id, env), id, 11)
  {
    RoutingRunsForward(w, id, env);
  }

  lemma RoutingRunsForward(w: World, id: DocId, env: Env)
    ensures ValidWorld(w) ==> StageShape(w, RoutingStage(w, id, env), id, 11)
  {
    if id !in w.docs {
      StageShapeRefl(w, id, 11);
    } else {
      var a := TryRouting(w, id, env);
      TryRoutingShape(w, id, env);
      StageShapeRefl(a.world, id, 13);
      ForwardOrderPositions();
      ThenFailOrRest(w, a, id, "Routing Error: ", env.now, 11, a.world);
    }
  }

  lemma RenamingRunsForward(w: World, id: DocId, env: Env)
    ensures ValidWorld(w) ==> StageShape(w, RenamingStage(w, id, env), id, 9)
  {
    if id !in w.docs {
      StageShapeRefl(w, id, 9);
    } else {
      var a := TryRenaming(w, id, env);
      TryRenamingShape(w, id, env);
      ForwardOrderPositions();
      if a.Threw? {
        var m := "File renaming failed: " + a.message;
        RenamingRecoveryShape(w, a, id, m, env.now);
        var p := Progress(a.world, id, Renamed, m, NoPatch, env.now);
        if p.Ok? {
          RoutingCallRunsForward(p.value, id, env);
          ThenFailOrRest(w, Done(p.value), id, "Renaming Error: ", env.now, 9, RunStage(Routing, p.value, id, env));
        }
      } else {
        RoutingCallRunsForward(a.world, id, env);
        ThenFailOrRest(w, a, id, "Renaming Error: ", env.now, 9, RunStage(Routing, a.world, id, env));
      }
    }
  }

  lemma SentimentRunsForward(w: World, id: DocId, env: Env)
    ensures ValidWorld(w) ==> StageShape(w, SentimentStage(w, id, env), id, 7)
  {
    if id !in w.docs || w.docs[id].extractedText == "" {
      StageShapeRefl(w, id, 7);
    } else {
      var a := TrySentiment(w, id, env);
      TrySentimentShape(w, id, env);
      RenamingCallRunsForward(a.world, id, env);
      ForwardOrderPositions();
      ThenFailOrRest(w, a, id, "Sentiment Analysis Error: ", env.now, 7, RunStage(FileRenaming, a.world, id, env));
    }
  }

  lemma DataExtractionRunsForward(w: World, id: DocId, env: Env)
    ensures ValidWorld(w) ==> StageShape(w, DataExtractionStage(w, id, env), id, 5)
  {
    if id !in w.docs {
      StageShapeRefl(w, id, 5);
    } else {
      var a := TryDataExtraction(w, id, env);
      TryDataExtractionShape(w, id, env);
      SentimentCallRunsForward(a.world, id, env);
      ForwardOrderPositions();
      ThenFailOrRest(w, a, id, "Data Extraction Error: ", env.now, 5, RunStage(SentimentAnalysis, a.world, id, env));
    }
  }

  lemma ClassificationRunsForward(w: World, id: DocId, env: Env)
    ensures ValidWorld(w) ==> StageShape(w, ClassificationStage(w, id, env), id, 3)
  {
    if id !in w.docs || w.docs[id].extractedText == "" {
      StageShapeRefl(w, id, 3);
    } else {
      var a := TryClassification(w, id, env);
      TryClassificationShape(w, id, env);
      DataExtractionCallRunsForward(a.world, id, env);
      ForwardOrderPositions();
      ThenFailOrRest(w, a, id, "Classification Error: ", env.now, 3, RunStage(DataExtraction, a.world, id, env));
    }
  }

  /** The whole chain, started by an upload or a re-extraction, announces the
      forward order from `Extraction_Pending` on and stops at the first `Failed`;
      it touches no other record and keeps the world valid. */
  lemma ExtractionRunsForward(w: World, id: DocId, env: Env)
    ensures ValidWorld(w) ==> StageShape(w, ExtractionStage(w, id, env), id, 1)
  {
    if id !in w.docs {
      StageShapeRefl(w, id, 1);
    } else {
      var a := TryExtraction(w, id, env);
      TryExtractionShape(w, id, env);
      ClassificationCallRunsForward(a.world, id, env);
      ForwardOrderPositions();
      ThenFailOrRest(w, a, id, "Extraction Error: ", env.now, 1, RunStage(Classification, a.world, id, env));
    }
  }

  /** A trace whose last status is `Routed` is every status of the forward
      order from `Extraction_Pending` to `Routed`, each once and in order. */
  predicate CompleteIfRouted(ss: seq<Status>) {
    ss != [] && ss[|ss| - 1] == Routed ==> ss == ForwardOrder[1..]
  }

  /** A run of the chain whose last announced status is `Routed` announced every
      status of the forward order from `Extraction_Pending` to `Routed`. */
  lemma RoutedRunIsComplete(w: World, id: DocId, env: Env)
    requires ValidWorld(w)
    ensures CompleteIfRouted(Written(w, ExtractionStage(w, id, env)))
  {
    ExtractionRunsForward(w, id, env);
    RoutedShapeIsComplete(w, ExtractionStage(w, id, env), id);
  }

  lemma RoutedShapeIsComplete(w: World, w2: World, id: DocId)
    ensures ValidWorld(w) && StageShape(w, w2, id, 1) ==> CompleteIfRouted(Written(w, w2))
  {
    var ss := Written(w, w2);
    if ValidWorld(w) && StageShape(w, w2, id, 1) && ss != [] && ss[|ss| - 1] == Routed {
      ForwardRunEndingRouted(ss, 1);
    }
  }

  // ---------------------------------------------------------------------
  // Errors, guards and the non-fatal rename
  // ---------------------------------------------------------------------

  // How a stage goes on from its `try` block, for any world that block left.
  // These equations, and the `Calls*` ones below, let the proofs about the
  // store's methods take one stage at a time without unfolding the chain.

  lemma ExtractionContinues(w: World, id: DocId, env: Env, w2: World)
    ensures id in w.docs && TryExtraction(w, id, env) == Done(w2) ==>
      ExtractionStage(w, id, env) == RunStage(Classification, w2, id, env)
  {
  }

  lemma ExtractionThrows(w: World, id: DocId, env: Env, w1: World, m: string)
    ensures id in w.docs && TryExtraction(w, id, env) == Threw(w1, m) ==>
      ExtractionStage(w, id, env) == Fail(w1, id, "Extraction Error: " + m, env.now)
  {
  }

  lemma DataExtractionContinues(w: World, id: DocId, env: Env, w2: World)
    ensures id in w.docs && TryDataExtraction(w, id, env) == Done(w2) ==>
      DataExtractionStage(w, id, env) == RunStage(SentimentAnalysis, w2, id, env)
  {
  }

  // A call of a stage by its number is the call of that stage.

  lemma CallsClassification(w: World, id: DocId, env: Env)
    ensures RunStage(Classification, w, id, env) == ClassificationStage(w, id, env)
  {
  }

  lemma CallsDataExtraction(w: World, id: DocId, env: Env)
    ensures RunStage(DataExtraction, w, id, env) == DataExtractionStage(w, id, env)
  {
  }

  lemma CallsSentimentAnalysis(w: World, id: DocId, env: Env)
    ensures RunStage(SentimentAnalysis, w, id, env) == SentimentStage(w, id, env)
  {
  }

  lemma CallsFileRenaming(w: World, id: DocId, env: Env)
    ensures RunStage(FileRenaming, w, id, env) == RenamingStage(w, id, env)
  {
  }

  lemma CallsRouting(w: World, id: DocId, env: Env)
    ensures RunStage(Routing, w, id, env) == RoutingStage(w, id, env)
  {
  }

  lemma DataExtractionThrows(w: World, id: DocId, env: Env, w1: World, m: string)
    ensures id in w.docs && TryDataExtraction(w, id, env) == Threw(w1, m) ==>
      DataExtractionStage(w, id, env) == Fail(w1, id, "Data Extraction Error: " + m, env.now)
  {
  }

  lemma ClassificationContinues(w: World, id: DocId, env: Env, w2: World)
    ensures id in w.docs && w.docs[id].extractedText != "" && TryClassification(w, id, env) == Done(w2) ==>
      ClassificationStage(w, id, env) == RunStage(DataExtraction, w2, id, env)
  {
  }

  lemma ClassificationThrows(w: World, id: DocId, env: Env, w1: World, m: string)
    ensures id in w.docs && w.docs[id].extractedText != "" && TryClassification(w, id, env) == Threw(w1, m) ==>
      ClassificationStage(w, id, env) == Fail(w1, id, "Classification Error: " + m, env.now)
  {
  }

  lemma SentimentContinues(w: World, id: DocId, env: Env, w2: World)
    ensures id in w.docs && w.docs[id].extractedText != "" && TrySentiment(w, id, env) == Done(w2) ==>
      SentimentStage(w, id, env) == RunStage(FileRenaming, w2, id, env)
  {
  }

  lemma SentimentThrows(w: World, id: DocId, env: Env, w1: World, m: string)
    ensures id in w.docs && w.docs[id].extractedText != "" && TrySentiment(w, id, env) == Threw(w1, m) ==>
      SentimentStage(w, id, env) == Fail(w1, id, "Sentiment Analysis Error: " + m, env.now)
  {
  }

  lemma RenamingContinues(w: World, id: DocId, env: Env, w2: World)
    ensures id in w.docs && TryRenaming(w, id, env) == Done(w2) ==>
      RenamingStage(w, id, env) == RunStage(Routing, w2, id, env)
  {
  }

  lemma RenamingRecovers(w: World, id: DocId, env: Env, w1: World, m: string, w2: World)
    ensures (&& id in w.docs && TryRenaming(w, id, env) == Threw(w1, m)
             && Progress(w1, id, Renamed, "File renaming failed: " + m, NoPatch, env.now) == Ok(w2)) ==>
      RenamingStage(w, id, env) == RunStage(Routing, w2, id, env)
  {
  }

  lemma RenamingStops(w: World, id: DocId, env: Env, w1: World, m: string)
    ensures (&& id in w.docs && TryRenaming(w, id, env) == Threw(w1, m)
             && Progress(w1, id, Renamed, "File renaming failed: " + m, NoPatch, env.now).Err?) ==>
      RenamingStage(w, id, env) == w1
  {
  }

  lemma RoutingCompletes(w: World, id: DocId, env: Env, w2: World)
    ensures id in w.docs && TryRouting(w, id, env) == Done(w2) ==> RoutingStage(w, id, env) == w2
  {
  }

  /** Classification and sentiment analysis skip a record without text. */
  lemma TextlessSkips(w: World, id: DocId, env: Env)
    ensures id in w.docs && w.docs[id].extractedText == "" ==>
      RunStage(Classification, w, id, env) == w && RunStage(SentimentAnalysis, w, id, env) == w
  {
  }

  /** `w2` is `w1` after a catch block: the record is `Failed`, `msg` is its
      new last log entry, and one event announced it. */
  predicate FailedWith(w1: World, w2: World, id: DocId, msg: string, now: int) {
    && id in w1.docs && id in w2.docs
    && w2.docs[id].status == Failed
    && w2.docs[id].logs == w1.docs[id].logs + [LogEntry(now, msg)]
    && w2.events == w1.events + [DocumentUpdated(w2.docs[id])]
  }

  /** `w2` ends a run from `w` that announced `ss` and then `Failed`, with
      `msg` as the record's last log entry. */
  predicate EndsFailed(w: World, w2: World, id: DocId, ss: seq<Status>, msg: string, now: int) {
    && Written(w, w2) == ss + [Failed] && id in w2.docs && w2.docs[id].status == Failed
    && w2.docs[id].logs != [] && w2.docs[id].logs[|w2.docs[id].logs| - 1] == LogEntry(now, msg)
  }

  /** A catch block after a `try` block that announced `ss` ends the run
      failed, and nothing else of the record but `updatedAt` changes. */
  lemma ThenFailed(w: World, w1: World, id: DocId, ss: seq<Status>, msg: string, now: int)
    ensures ValidWorld(w1) && id in w1.docs && msg != "" && Frame(w, w1, id) && Wrote(w, w1, ss) ==>
      var w2 := Fail(w1, id, msg, now);
      && EndsFailed(w, w2, id, ss, msg, now) && id in w2.docs
      && w2.docs[id] == Stamp(w1.docs[id], Failed, msg, now).(updatedAt := now)
  {
    if ValidWorld(w1) && id in w1.docs && msg != "" && Frame(w, w1, id) && Wrote(w, w1, ss) {
      FailStep(w1, id, msg, now);
      PendingSaved(w1, id, Failed, msg, now);
      FrameTrans(w, w1, Fail(w1, id, msg, now), id, ss, [Failed]);
      WrittenOf(w, Fail(w1, id, msg, now), ss + [Failed]);
    }
  }

  /** An extraction error ends the chain: the record is `Failed` with an
      "Extraction Error: " entry and nothing runs after it. */
  lemma ExtractionErrorEndsChain(w: World, id: DocId, env: Env)
    ensures ValidWorld(w) && id in w.docs && TryExtraction(w, id, env).Threw? ==>
      var a := TryExtraction(w, id, env);
      && ExtractionStage(w, id, env) == Fail(a.world, id, "Extraction Error: " + a.message, env.now)
      && FailedWith(a.world, ExtractionStage(w, id, env), id, "Extraction Error: " + a.message, env.now)
  {
    if ValidWorld(w) && id in w.docs && TryExtraction(w, id, env).Threw? {
      var a := TryExtraction(w, id, env);
      TryExtractionShape(w, id, env);
      FailStep(a.world, id, "Extraction Error: " + a.message, env.now);
    }
  }

  /** An extractor that fails with `m` leaves the trace `Extraction_Pending`,
      `Failed` and the entry "Extraction Error: " + `m`. */
  lemma ExtractorFailureFails(w: World, id: DocId, env: Env)
    ensures ValidWorld(w) && id in w.docs && env.extract(ExtractorFor(w.docs[id].fileType), w.docs[id].filePath).Err? ==>
      var m := env.extract(ExtractorFor(w.docs[id].fileType), w.docs[id].filePath).message;
      EndsFailed(w, ExtractionStage(w, id, env), id, [ExtractionPending], "Extraction Error: " + m, env.now)
  {
    if ValidWorld(w) && id in w.docs && env.extract(ExtractorFor(w.docs[id].fileType), w.docs[id].filePath).Err? {
      var m := env.extract(ExtractorFor(w.docs[id].fileType), w.docs[id].filePath).message;
      AttemptedThrowsInWork(w, id, ExtractionPending, "Starting text extraction...", ExtractionWork(w.docs[id], env), None, env.now);
      var a := TryExtraction(w, id, env);
      ExtractionThrows(w, id, env, a.world, m);
      ThenFailed(w, a.world, id, [ExtractionPending], "Extraction Error: " + m, env.now);
    }
  }

  /** A classification error ends the chain: `Failed` with a "Classification Error: " entry. */
  lemma ClassificationErrorEndsChain(w: World, id: DocId, env: Env)
    ensures ValidWorld(w) && id in w.docs && w.docs[id].extractedText != "" && TryClassification(w, id, env).Threw? ==>
      var a := TryClassification(w, id, env);
      && ClassificationStage(w, id, env) == Fail(a.world, id, "Classification Error: " + a.message, env.now)
      && FailedWith(a.world, ClassificationStage(w, id, env), id, "Classification Error: " + a.message, env.now)
  {
    if ValidWorld(w) && id in w.docs && w.docs[id].extractedText != "" && TryClassification(w, id, env).Threw? {
      var a := TryClassification(w, id, env);
      TryClassificationShape(w, id, env);
      FailStep(a.world, id, "Classification Error: " + a.message, env.now);
    }
  }

  /** The `try` block of data extraction always completes on a valid world,
      storing the service's answer and leaving the text alone. */
  lemma DataExtractionTryCompletes(w: World, id: DocId, env: Env)
    ensures ValidWorld(w) && id in w.docs ==>
      var a := TryDataExtraction(w, id, env);
      && a == Done(a.world) && Frame(w, a.world, id) && ValidWorld(a.world)
      && Wrote(w, a.world, [DataExtractionPending, DataExtracted])
      && id in a.world.docs && a.world.docs[id].status == DataExtracted
      && a.world.docs[id].extractedText == w.docs[id].extractedText
      && a.world.docs[id].structuredData
         == ExtractStructuredData(w.docs[id].extractedText, w.docs[id].classification, env.model, env.parse)
  {
    if ValidWorld(w) && id in w.docs {
      AttemptedCompletes(w, id, DataExtractionPending, "Extracting structured data...", DataExtractionWork(w.docs[id], env).value, None, env.now);
    }
  }

  /** Data extraction cannot fail on a valid world: the service turns every
      provider failure into a value, and the structured data always casts. So
      the stored data is the service's answer and sentiment analysis runs next. */
  lemma DataExtractionNeverFails(w: World, id: DocId, env: Env)
    ensures ValidWorld(w) && id in w.docs ==>
      var a := TryDataExtraction(w, id, env);
      && a.Done? && id in a.world.docs
      && a.world.docs[id].status == DataExtracted
      && a.world.docs[id].structuredData
         == ExtractStructuredData(w.docs[id].extractedText, w.docs[id].classification, env.model, env.parse)
      && DataExtractionStage(w, id, env) == RunStage(SentimentAnalysis, a.world, id, env)
  {
    if ValidWorld(w) && id in w.docs {
      DataExtractionTryCompletes(w, id, env);
      DataExtractionContinues(w, id, env, TryDataExtraction(w, id, env).world);
    }
  }

  /** When the classification's fields cast, the `Classified` record holds them
      cast, the label as a string and the score as a number, and data
      extraction runs next. */
  lemma ClassificationStores(w: World, id: DocId, env: Env)
    ensures ValidWorld(w) && id in w.docs && w.docs[id].extractedText != "" ==>
      var f := ClassificationFields(ClassifyText(w.docs[id].extractedText, env.model, env.parse));
      f.Ok? && CastString(f.value.0).Some? && CastNumber(f.value.1).Some? ==>
      var a := TryClassification(w, id, env);
      && a.Done? && id in a.world.docs
      && a.world.docs[id].status == Classified
      && a.world.docs[id].classification == CastString(f.value.0).value
      && a.world.docs[id].confidenceScore == CastNumber(f.value.1).value
      && a.world.docs[id].extractedText == w.docs[id].extractedText
      && ClassificationStage(w, id, env) == RunStage(DataExtraction, a.world, id, env)
  {
    if ValidWorld(w) && id in w.docs && w.docs[id].extractedText != "" {
      var f := ClassificationFields(ClassifyText(w.docs[id].extractedText, env.model, env.parse));
      if f.Ok? && CastString(f.value.0).Some? && CastNumber(f.value.1).Some? {
        var step := ClassificationWork(w.docs[id], env).value;
        assert step.patch == ClassificationPatch(f.value.0, f.value.1);
        AttemptedCompletes(w, id, ClassificationPending, "Classifying document...", step, None, env.now);
        ClassificationContinues(w, id, env, TryClassification(w, id, env).world);
      }
    }
  }

  /** When the proposed name sanitizes to something, the `Renamed` record
      carries that sanitized name and routing runs next. */
  lemma RenamingStores(w: World, id: DocId, env: Env)
    ensures ValidWorld(w) && id in w.docs && ProposedName(w.docs[id]).Ok?
            && SanitizeFilename(ProposedName(w.docs[id]).value) != "" ==>
      var a := TryRenaming(w, id, env);
      && a.Done? && id in a.world.docs
      && a.world.docs[id].status == Renamed
      && a.world.docs[id].originalName == SanitizeFilename(ProposedName(w.docs[id]).value)
      && RenamingStage(w, id, env) == RunStage(Routing, a.world, id, env)
  {
    if ValidWorld(w) && id in w.docs && ProposedName(w.docs[id]).Ok? && SanitizeFilename(ProposedName(w.docs[id]).value) != "" {
      var step := RenamingWork(w.docs[id]).value;
      assert step.patch == NamePatch(SanitizeFilename(ProposedName(w.docs[id]).value));
      AttemptedCompletes(w, id, RenamingPending, "Generating new filename...", step, None, env.now);
      RenamingContinues(w, id, env, TryRenaming(w, id, env).world);
    }
  }

  /** Sentiment analysis cannot fail on a valid world either: the label it
      stores is always one the schema accepts, and renaming runs next. */
  lemma SentimentNeverFails(w: World, id: DocId, env: Env)
    ensures ValidWorld(w) && id in w.docs && w.docs[id].extractedText != "" ==>
      var a := TrySentiment(w, id, env);
      && a.Done? && id in a.world.docs
      && a.world.docs[id].status == Analyzed
      && SentimentName(a.world.docs[id].sentiment) == AnalyzeSentiment(w.docs[id].extractedText, env.model)
      && SentimentStage(w, id, env) == RunStage(FileRenaming, a.world, id, env)
  {
    if ValidWorld(w) && id in w.docs && w.docs[id].extractedText != "" {
      AttemptedCompletes(w, id, SentimentPending, "Analyzing sentiment...", SentimentWork(w.docs[id], env).value, None, env.now);
    }
  }

  /** A routing error ends the chain: `Failed` with a "Routing Error: " entry. */
  lemma RoutingErrorEndsChain(w: World, id: DocId, env: Env)
    ensures ValidWorld(w) && id in w.docs && TryRouting(w, id, env).Threw? ==>
      var a := TryRouting(w, id, env);
      && RoutingStage(w, id, env) == Fail(a.world, id, "Routing Error: " + a.message, env.now)
      && FailedWith(a.world, RoutingStage(w, id, env), id, "Routing Error: " + a.message, env.now)
  {
    if ValidWorld(w) && id in w.docs && TryRouting(w, id, env).Threw? {
      var a := TryRouting(w, id, env);
      TryRoutingShape(w, id, env);
      FailStep(a.world, id, "Routing Error: " + a.message, env.now);
    }
  }

  /** The `try` block of routing for a record whose owner is gone saves both
      statuses and the destination, then throws reading the owner's address. */
  lemma RoutedThenNotifyThrows(w: World, id: DocId, env: Env)
    ensures ValidWorld(w) && id in w.docs && w.docs[id].owner !in w.users ==>
      var a := TryRouting(w, id, env);
      && a == Threw(a.world, NullReadMessage("email"))
      && Frame(w, a.world, id) && ValidWorld(a.world) && Wrote(w, a.world, [RoutingPending, Routed])
      && id in a.world.docs && a.world.docs[id].routeDestination == RouteDestination(w.docs[id].classification)
  {
    if ValidWorld(w) && id in w.docs && w.docs[id].owner !in w.users {
      AttemptedCompletes(w, id, RoutingPending, "Applying routing rules...", RoutingWork(w.docs[id]).value,
                         NotificationFailure(w, w.docs[id]), env.now);
    }
  }

  lemma RoutingThrows(w: World, id: DocId, env: Env, w1: World, m: string)
    ensures id in w.docs && TryRouting(w, id, env) == Threw(w1, m) ==>
      RoutingStage(w, id, env) == Fail(w1, id, "Routing Error: " + m, env.now)
  {
  }

  /** A record whose owner is gone is routed and then failed: the notification
      reads the owner's address after `Routed` is saved. */
  lemma MissingOwnerFailsAfterRouting(w: World, id: DocId, env: Env)
    ensures ValidWorld(w) && id in w.docs && w.docs[id].owner !in w.users ==>
      var w2 := RoutingStage(w, id, env);
      && EndsFailed(w, w2, id, [RoutingPending, Routed], "Routing Error: " + NullReadMessage("email"), env.now)
      && w2.docs[id].routeDestination == RouteDestination(w.docs[id].classification)
  {
    if ValidWorld(w) && id in w.docs && w.docs[id].owner !in w.users {
      var a := TryRouting(w, id, env);
      var msg := "Routing Error: " + NullReadMessage("email");
      RoutedThenNotifyThrows(w, id, env);
      RoutingThrows(w, id, env, a.world, NullReadMessage("email"));
      ThenFailed(w, a.world, id, [RoutingPending, Routed], msg, env.now);
    }
  }

  /** A renaming error is not fatal: the record is `Renamed` with a "File renaming
      failed: " entry, keeps its name, and routing runs next. */
  lemma RenamingErrorIsNotFatal(w: World, id: DocId, env: Env)
    ensures ValidWorld(w) && id in w.docs && TryRenaming(w, id, env).Threw? ==>
      var a := TryRenaming(w, id, env);
      var m := "File renaming failed: " + a.message;
      var p := Progress(a.world, id, Renamed, m, NoPatch, env.now);
      && p.Ok? && id in p.value.docs
      && p.value.docs[id].status == Renamed
      && p.value.docs[id].originalName == w.docs[id].originalName
      && p.value.docs[id].logs == a.world.docs[id].logs + [LogEntry(env.now, m)]
      && RenamingStage(w, id, env) == RunStage(Routing, p.value, id, env)
  {
    if ValidWorld(w) && id in w.docs && TryRenaming(w, id, env).Threw? {
      var msg := "Generating new filename...";
      ProgressWithoutPatch(w, id, RenamingPending, msg, env.now);
      ProgressOutcome(w, id, RenamingPending, msg, NoPatch, env.now);
      ProgressStep(w, id, RenamingPending, msg, NoPatch, env.now);
      var w1 := Progress(w, id, RenamingPending, msg, NoPatch, env.now).value;
      var a := TryRenaming(w, id, env);
      assert a.world == w1;
      var m := "File renaming failed: " + a.message;
      ProgressWithoutPatch(w1, id, Renamed, m, env.now);
      ProgressOutcome(w1, id, Renamed, m, NoPatch, env.now);
    }
  }

  /** An Invoice or Contract whose structured data is `null` hits the failing
      rename: reading a field of `null` throws inside the `try` block. */
  lemma NullStructuredDataFailsRename(w: World, id: DocId, env: Env)
    ensures (&& ValidWorld(w) && id in w.docs && w.docs[id].structuredData.JNull?
             && (w.docs[id].classification == "Invoice" || w.docs[id].classification == "Contract")) ==>
      TryRenaming(w, id, env).Threw?
  {
    if ValidWorld(w) && id in w.docs {
      ProgressWithoutPatch(w, id, RenamingPending, "Generating new filename...", env.now);
    }
  }

  /** A name that sanitizes to nothing fails validation, which also lands in
      the non-fatal path. */
  lemma EmptySanitizedNameFailsRename(w: World, id: DocId, env: Env)
    ensures (&& ValidWorld(w) && id in w.docs && ProposedName(w.docs[id]).Ok?
             && SanitizeFilename(ProposedName(w.docs[id]).value) == "") ==>
      TryRenaming(w, id, env) == Threw(TryRenaming(w, id, env).world, RequiredMessage("originalName"))
  {
    if ValidWorld(w) && id in w.docs {
      ProgressWithoutPatch(w, id, RenamingPending, "Generating new filename...", env.now);
    }
  }

  /** Classification and sentiment are complete no-ops for a record without
      text; every stage is one for a missing record. */
  lemma GuardsAreNoOps(w: World, id: DocId, env: Env)
    ensures id !in w.docs ==>
      && ExtractionStage(w, id, env) == w && ClassificationStage(w, id, env) == w
      && DataExtractionStage(w, id, env) == w && SentimentStage(w, id, env) == w
      && RenamingStage(w, id, env) == w && RoutingStage(w, id, env) == w
    ensures id in w.docs && w.docs[id].extractedText == "" ==>
      ClassificationStage(w, id, env) == w && SentimentStage(w, id, env) == w
  {
  }

  /** Data extraction checks only that the record exists: on a record without
      text it still runs, and the chain then stops at `Data_Extracted` because
      sentiment analysis does nothing. */
  lemma DataExtractionIgnoresEmptyText(w: World, id: DocId, env: Env)
    ensures ValidWorld(w) && id in w.docs && w.docs[id].extractedText == "" ==>
      Written(w, DataExtractionStage(w, id, env)) == [DataExtractionPending, DataExtracted]
  {
    if ValidWorld(w) && id in w.docs && w.docs[id].extractedText == "" {
      DataExtractionTryCompletes(w, id, env);
      var a := TryDataExtraction(w, id, env);
      DataExtractionContinues(w, id, env, a.world);
      TextlessSkips(a.world, id, env);
      WrittenOf(w, a.world, [DataExtractionPending, DataExtracted]);
    }
  }

  /** The `try` block of extraction with an extractor that yields no text
      completes and stores the empty text. */
  lemma EmptyExtractionTryCompletes(w: World, id: DocId, env: Env)
    ensures ValidWorld(w) && id in w.docs && env.extract(ExtractorFor(w.docs[id].fileType), w.docs[id].filePath) == Ok("") ==>
      var a := TryExtraction(w, id, env);
      && a == Done(a.world) && Frame(w, a.world, id) && ValidWorld(a.world)
      && Wrote(w, a.world, [ExtractionPending, Extracted])
      && id in a.world.docs && a.world.docs[id].status == Extracted && a.world.docs[id].extractedText == ""
  {
    if ValidWorld(w) && id in w.docs && env.extract(ExtractorFor(w.docs[id].fileType), w.docs[id].filePath) == Ok("") {
      AttemptedCompletes(w, id, ExtractionPending, "Starting text extraction...", ExtractionWork(w.docs[id], env).value, None, env.now);
    }
  }

  /** An extraction that yields no text stalls the chain at `Extracted`: the
      classification guard stops it and nothing further is written. */
  lemma EmptyExtractionStalls(w: World, id: DocId, env: Env)
    ensures ValidWorld(w) && id in w.docs && env.extract(ExtractorFor(w.docs[id].fileType), w.docs[id].filePath) == Ok("") ==>
      var w2 := ExtractionStage(w, id, env);
      && Written(w, w2) == [ExtractionPending, Extracted]
      && id in w2.docs && w2.docs[id].status == Extracted && w2.docs[id].extractedText == ""
  {
    if ValidWorld(w) && id in w.docs && env.extract(ExtractorFor(w.docs[id].fileType), w.docs[id].filePath) == Ok("") {
      EmptyExtractionTryCompletes(w, id, env);
      var a := TryExtraction(w, id, env);
      ExtractionContinues(w, id, env, a.world);
      TextlessSkips(a.world, id, env);
      WrittenOf(w, a.world, [ExtractionPending, Extracted]);
    }
  }
}

/**
 From recovery to the protocol: the state a run of a restarted daemon starts in.
 */
module Startup {
  import opened ByteStrings
  import opened Protocol
  import opened PublishOrder
  import opened Agreement
  import opened CounterTraces
  import opened Changes
  import V = Recovery

  /** The build of an earlier process whose artifacts are on disk. */
  const OLD: BuildId := -1

  /** A preview recorded as ready, and what its restore is answered. */
  datatype Previous = Previous(url: string, answers: V.Answers)

  function RestoreOf(x: Previous): V.Restored { V.Restore(x.url, x.answers) }

  /** The row afterwards, if there is one. */
  function RowOf(x: Previous): Row {
    match RestoreOf(x).row
    case Ready(url) => Row(RowReady, url, OLD)
    case Failed => Row(RowFailed, "", OLD)
    case Gone => Row(RowSkipped, "", OLD)
  }

  /** What an earlier process leaves besides the previews that are restored: the rows recovery does
      not touch, and the queue. */
  datatype Rest = Rest(rows: map<PreviewId, Row>, jobs: map<PreviewId, Push>, nextPush: Push)

  predicate RestOk(all: map<PreviewId, Previous>, rest: Rest) {
    && all.Keys !! rest.rows.Keys
    && (forall p | p in rest.rows :: rest.rows[p].dir < 0)
    && (forall p | p in rest.jobs :: rest.jobs[p] < rest.nextPush)
  }

  /** The state recovery leaves. */
  function StartOf(all: map<PreviewId, Previous>, rest: Rest): State {
    START.(
      jobs := rest.jobs, nextPush := rest.nextPush,
      maps := START.maps.(live := map p | p in all && RestoreOf(all[p]).live.Some? ::
                                    Publication(RestoreOf(all[p]).live.value, OLD)),
      rows := rest.rows + (map p | p in all && RestoreOf(all[p]).row != V.Gone :: RowOf(all[p])),
      artifacts := set p | p in all :: (p, OLD))
  }

  /** The preview came back at another URL, which could not be saved. */
  predicate MovedUnsaved(x: Previous) {
    x.answers.usable && x.answers.published.Some? && x.answers.published.value != x.url && !x.answers.saves
  }

  /** The preview did not come back, or not as recorded, and its row could not be corrected. */
  predicate Uncorrected(x: Previous) {
    if !x.answers.usable then !x.answers.deletes
    else (x.answers.published.None? || MovedUnsaved(x)) && !x.answers.fails
  }

  /** The row says ready, and what it names is not live. */
  predicate Dangling(s: State, p: PreviewId) {
    p in s.rows && s.rows[p].state == RowReady && !(p in s.maps.live && s.maps.live[p].url == s.rows[p].url)
  }

  /** Whatever the restores are answered, a run may start from there. The publications left
      unrecorded are exactly those that moved and could not be saved, and the ready rows of restored
      previews that name nothing live are exactly those that could not be corrected. */
  lemma RecoveryStartsARun(all: map<PreviewId, Previous>, rest: Rest)
    requires RestOk(all, rest)
    ensures Init(StartOf(all, rest))
    ensures forall p :: p in Astray(StartOf(all, rest)) <==> p in all && MovedUnsaved(all[p])
    ensures forall p | p in all :: Dangling(StartOf(all, rest), p) <==> Uncorrected(all[p])
  {
    forall p ensures p in Astray(StartOf(all, rest)) <==> p in all && MovedUnsaved(all[p]) { StraysExactly(all, rest, p); }
    forall p | p in all ensures Dangling(StartOf(all, rest), p) <==> Uncorrected(all[p]) { DanglesExactly(all, rest, p); }
  }

  lemma StraysExactly(all: map<PreviewId, Previous>, rest: Rest, p: PreviewId)
    requires RestOk(all, rest)
    ensures p in Astray(StartOf(all, rest)) <==> p in all && MovedUnsaved(all[p])
  {
  }

  lemma DanglesExactly(all: map<PreviewId, Previous>, rest: Rest, p: PreviewId)
    requires RestOk(all, rest) && p in all
    ensures Dangling(StartOf(all, rest), p) <==> Uncorrected(all[p])
  {
  }

  /** A preview that is restored has no row afterwards exactly if its artifacts could not be used and the
      row could be deleted, and a failed one exactly if it did not come back as recorded and that could
      be recorded; rows recovery does not touch, and the queue, are as they were. */
  lemma RecoveryLeavesRows(all: map<PreviewId, Previous>, rest: Rest, p: PreviewId)
    requires RestOk(all, rest)
    ensures var s := StartOf(all, rest);
            && s.jobs == rest.jobs && (p in rest.rows ==> p in s.rows && s.rows[p] == rest.rows[p])
            && (p in all ==>
                  var a := all[p].answers;
                  && (p !in s.rows <==> !a.usable && a.deletes)
                  && (p in s.rows ==> s.rows[p].state == if a.usable && a.fails && (a.published.None? || MovedUnsaved(all[p])) then RowFailed else RowReady))
  {
  }

  /** So in every disciplined run of a restarted daemon, whenever no commit phase of p is in
      progress, what is live for p is recorded, unless it is still what recovery published and that
      had moved without being saved. */
  lemma LiveIsRecordedAfterRestart(d: Discipline, all: map<PreviewId, Previous>, rest: Rest,
                                   run: seq<State>, i: nat, p: PreviewId)
    requires RestOk(all, rest) && |run| > 0 && run[0] == StartOf(all, rest)
    requires d.ownSection && d.quietTail && d.atomicRecord && Follows(d, run) && i < |run|
    requires Calm(run[i], p) && p in run[i].maps.live
    requires p in all && MovedUnsaved(all[p]) ==> run[i].maps.live[p].build != OLD
    ensures Matches(run[i], p)
  {
    RecoveryStartsARun(all, rest);
    if run[i].maps.live[p].build < 0 { OldOnesAreOld(d, run, i, p); }
    LiveIsRecorded(d, run, i, p);
  }

  /** What is live was built by this process, or is what recovery published. */
  lemma {:induction false} OldOnesAreOld(d: Discipline, run: seq<State>, i: nat, p: PreviewId)
    requires Follows(d, run) && i < |run| && p in run[i].maps.live && run[i].maps.live[p].build < 0
    ensures p in run[0].maps.live && run[0].maps.live[p] == run[i].maps.live[p]
  {
    if i > 0 {
      assert Moves(d, run, i - 1);
      var step :| Allowed(d, run[i - 1], step) && run[i] == Apply(run[i - 1], step);
      OldOneWasThere(run[i - 1], step, p);
      OldOnesAreOld(d, run, i - 1, p);
    }
  }

  lemma OldOneWasThere(s: State, step: Step, p: PreviewId)
    requires Enabled(s, step) && p in Apply(s, step).maps.live && Apply(s, step).maps.live[p].build < 0
    ensures p in s.maps.live && s.maps.live[p] == Apply(s, step).maps.live[p]
  {
    PublicationsChangeExactly(s, step, p);
  }
}

/**
 The build, commit and teardown protocol of the daemon, as a transition system.

 Webhook handlers, workers, cancellations, teardowns and the reaper interleave over a few
 maps. Every critical section of the daemon's own mutex is one step here, and so is every
 call that leaves the process (the queue, the row store, the exposer, the disk). The
 per-preview commit mutex is a second lock: its identity is a value in a map, it is created
 on demand, and a teardown deletes it while holding it.

 Steps are kept in the order the code takes them. What the code only gets right under a
 hypothesis about the interleaving is stated with that hypothesis, as a `Discipline`.
 */
module Protocol {
  type PreviewId = string
  /** Builds of this process are numbered from 0; those of earlier processes are negative. */
  type BuildId = int
  type TeardownId = int
  type HandlerId = nat
  type Mutex = nat
  type Push = nat

  /** How a build ended. `Superseded` is the outcome that discards the result. */
  datatype Outcome = Ready | Failed | Skipped | Superseded

  /** The ends that leave a row of their own when there is no preview. */
  type Recordable = o: Outcome | o == Failed || o == Skipped witness Failed

  /** Where one build is. `m` is the commit mutex it fetched. */
  datatype BuildPc =
    | Claimed                                // the job has left the queue
    | Registered                             // it is the entry of `running`
    | Waiting(m: Mutex)                      // has the mutex's identity, not the mutex
    | Locked(m: Mutex)                       // holds the mutex, has not checked yet
    | Committing(m: Mutex)                   // passed the check, nothing changed yet
    | Stored(m: Mutex)                       // artifact directory in place
    | Shared(m: Mutex, url: string)          // the exposer serves it
    | Installed(m: Mutex, url: string)       // it is the entry of `live`
    | Unrecorded(m: Mutex)                   // the row could not be saved
    | Withdrawn(m: Mutex)                    // taken out of `live` again
    | Recorded(m: Mutex)                     // the row is saved
    | Leaving(m: Mutex, out: Outcome)        // about to release the mutex
    | Returned(out: Outcome)                 // the pipeline has returned
    | Recording(end: Recordable, blocked: bool) // rows listed, to be recorded unless blocked
    | Finishing(out: Outcome)                // about to leave `running`
    | Done(out: Outcome)

  /** One generation of work. `reg` is its place in registration order once registered, and
      `passed` says whether it ever passed the check of the commit phase. */
  datatype Build = Build(preview: PreviewId, push: Push, pc: BuildPc, reg: nat, passed: bool)

  datatype TeardownPc =
    | TWaiting(m: Mutex)
    | TLocked(m: Mutex)
    | TTail(m: Mutex)     // past the critical section, still holding the mutex
    | TDone

  datatype Teardown = Teardown(preview: PreviewId, pc: TeardownPc)

  datatype Holder = ByBuild(b: BuildId) | ByTeardown(t: TeardownId)

  datatype RowState = RowReady | RowFailed | RowSkipped
  /** A preview row; `dir` names the build whose artifact directory it serves. */
  datatype Row = Row(state: RowState, url: string, dir: BuildId)
  datatype Publication = Publication(url: string, build: BuildId)

  /** The maps guarded by the daemon's mutex. */
  datatype Maps = Maps(
    running: map<PreviewId, BuildId>,
    live: map<PreviewId, Publication>,
    commit: map<PreviewId, Mutex>,
    nextMutex: Mutex)

  /** What a build puts in place that lasts: four things in its commit phase, in that order, and
      the row of a build that failed or was skipped, which is written outside it. */
  datatype Kind = PutArtifacts | TookShare | WentLive | WroteRow | RecordedOutcome
  datatype Effect = Effect(kind: Kind, preview: PreviewId, build: BuildId, reg: nat)

  /** The newest push of a preview nobody has withdrawn, and the build that claimed it. */
  datatype Newest = Unclaimed(push: Push) | ClaimedBy(push: Push, b: BuildId)

  datatype State = State(
    maps: Maps,
    jobs: map<PreviewId, Push>,
    builds: seq<Build>,
    teardowns: seq<Teardown>,
    handlers: map<HandlerId, PreviewId>,
    held: map<Mutex, Holder>,
    cancelled: set<BuildId>,
    stopping: bool,
    rows: map<PreviewId, Row>,
    artifacts: set<(PreviewId, BuildId)>,
    nextReg: nat,
    nextPush: Push,
    newest: map<PreviewId, Newest>,
    effects: seq<Effect>)

  // ---------------------------------------------------------------------------------------
  // The critical sections of the daemon's mutex
  // ---------------------------------------------------------------------------------------

  /** The map after commitLock: an absent entry is created. */
  function WithLock(d: Maps, p: PreviewId): Maps {
    if p in d.commit then d else d.(commit := d.commit[p := d.nextMutex], nextMutex := d.nextMutex + 1)
  }

  function LockOf(d: Maps, p: PreviewId): Mutex {
    if p in d.commit then d.commit[p] else d.nextMutex
  }

  predicate IsCurrent(d: Maps, p: PreviewId, b: BuildId) {
    p in d.running && d.running[p] == b
  }

  function Register(d: Maps, p: PreviewId, b: BuildId): Maps {
    d.(running := d.running[p := b])
  }

  function Abandon(d: Maps, p: PreviewId): Maps {
    d.(running := d.running - {p})
  }

  function Deregister(d: Maps, p: PreviewId, b: BuildId): Maps {
    if IsCurrent(d, p, b) then Abandon(d, p) else d
  }

  function PutLive(d: Maps, p: PreviewId, pub: Publication): Maps {
    d.(live := d.live[p := pub])
  }

  function DropLive(d: Maps, p: PreviewId): Maps {
    d.(live := d.live - {p})
  }

  /** The one section of a teardown: the running build, the publication and the mutex go. */
  function TearDown(d: Maps, p: PreviewId): Maps {
    d.(running := d.running - {p}, live := d.live - {p}, commit := d.commit - {p})
  }

  // ---------------------------------------------------------------------------------------
  // A webhook delivery and the queue
  // ---------------------------------------------------------------------------------------

  function DoEnqueue(s: State, h: HandlerId, p: PreviewId): State {
    s.(jobs := s.jobs[p := s.nextPush], handlers := s.handlers[h := p],
       newest := s.newest[p := Unclaimed(s.nextPush)], nextPush := s.nextPush + 1)
  }

  /** Cancelling the context of whatever is running for p. */
  function CancelledWith(s: State, p: PreviewId): set<BuildId> {
    if p in s.maps.running then s.cancelled + {s.maps.running[p]} else s.cancelled
  }

  function DoClear(s: State, h: HandlerId): State
    requires h in s.handlers
  {
    var p := s.handlers[h];
    s.(handlers := s.handlers - {h}, maps := Abandon(s.maps, p), cancelled := CancelledWith(s, p))
  }

  function DoClaim(s: State, p: PreviewId): State
    requires p in s.jobs
  {
    s.(jobs := s.jobs - {p},
       builds := s.builds + [Build(p, s.jobs[p], Claimed, 0, false)],
       newest := if p in s.newest && s.newest[p] == Unclaimed(s.jobs[p])
                 then s.newest[p := ClaimedBy(s.jobs[p], |s.builds|)] else s.newest)
  }

  /** Removing a queued job withdraws the push it stands for. */
  function DoDequeue(s: State, p: PreviewId): State {
    s.(jobs := s.jobs - {p},
       newest := if p in s.newest && s.newest[p].Unclaimed? then s.newest - {p} else s.newest)
  }

  // ---------------------------------------------------------------------------------------
  // A build
  // ---------------------------------------------------------------------------------------

  predicate At(s: State, b: BuildId) { 0 <= b < |s.builds| }
  function PcOf(s: State, b: BuildId): BuildPc requires At(s, b) { s.builds[b].pc }
  function PreviewOf(s: State, b: BuildId): PreviewId requires At(s, b) { s.builds[b].preview }

  /** Build b acted: other builds, teardowns, deliveries and the queue are as they were, and nobody
      but b was registered. */
  ghost predicate OnlyActed(s: State, s': State, b: BuildId) {
    && At(s, b) && |s'.builds| == |s.builds|
    && (forall c {:trigger s'.builds[c]} | At(s, c) && c != b :: s'.builds[c] == s.builds[c])
    && s'.builds[b].preview == s.builds[b].preview && s'.builds[b].push == s.builds[b].push
    && s'.teardowns == s.teardowns && s'.jobs == s.jobs && s'.handlers == s.handlers
    && s'.newest == s.newest && s'.nextPush == s.nextPush && s'.stopping == s.stopping
    && (forall p, c | c != b && IsCurrent(s'.maps, p, c) :: IsCurrent(s.maps, p, c))
  }

  function Moved(s: State, b: BuildId, pc: BuildPc): (s': State)
    requires At(s, b)
    ensures OnlyActed(s, s', b)
  {
    s.(builds := s.builds[b := s.builds[b].(pc := pc)])
  }

  function Did(s: State, b: BuildId, kind: Kind): (s': State)
    requires At(s, b)
    ensures OnlyActed(s, s', b)
  {
    s.(effects := s.effects + [Effect(kind, PreviewOf(s, b), b, s.builds[b].reg)])
  }

  function DoRegister(s: State, b: BuildId): (s': State)
    requires At(s, b) && PcOf(s, b).Claimed?
    ensures OnlyActed(s, s', b)
  {
    s.(maps := Register(s.maps, PreviewOf(s, b), b), nextReg := s.nextReg + 1,
       builds := s.builds[b := s.builds[b].(pc := Registered, reg := s.nextReg)])
  }

  function DoFetchLock(s: State, b: BuildId): (s': State)
    requires At(s, b) && PcOf(s, b).Registered?
    ensures OnlyActed(s, s', b)
  {
    var p := PreviewOf(s, b);
    Moved(s, b, Waiting(LockOf(s.maps, p))).(maps := WithLock(s.maps, p))
  }

  function DoAcquire(s: State, b: BuildId): (s': State)
    requires At(s, b) && PcOf(s, b).Waiting?
    ensures OnlyActed(s, s', b)
  {
    var m := PcOf(s, b).m;
    Moved(s, b, Locked(m)).(held := s.held[m := ByBuild(b)])
  }

  /** The check of the commit phase: cancelled, or no longer registered, changes nothing. */
  function DoCheck(s: State, b: BuildId, sawCancel: bool): (s': State)
    requires At(s, b) && PcOf(s, b).Locked?
    ensures OnlyActed(s, s', b)
  {
    var m := PcOf(s, b).m;
    if sawCancel || !IsCurrent(s.maps, PreviewOf(s, b), b) then Moved(s, b, Leaving(m, Superseded))
    else s.(builds := s.builds[b := s.builds[b].(pc := Committing(m), passed := true)])
  }

  function DoPlaceArtifacts(s: State, b: BuildId, ok: bool): (s': State)
    requires At(s, b) && PcOf(s, b).Committing?
    ensures OnlyActed(s, s', b)
  {
    var p, m := PreviewOf(s, b), PcOf(s, b).m;
    if ok then Did(Moved(s, b, Stored(m)), b, PutArtifacts).(artifacts := s.artifacts + {(p, b)})
    else Moved(s, b, Leaving(m, Failed)).(artifacts := s.artifacts - {(p, b)})
  }

  function DoTakeShare(s: State, b: BuildId, url: string): (s': State)
    requires At(s, b) && PcOf(s, b).Stored?
    ensures OnlyActed(s, s', b)
  {
    Did(Moved(s, b, Shared(PcOf(s, b).m, url)), b, TookShare)
  }

  function DoGoLive(s: State, b: BuildId): (s': State)
    requires At(s, b) && PcOf(s, b).Shared?
    ensures OnlyActed(s, s', b)
  {
    var pc := PcOf(s, b);
    Did(Moved(s, b, Installed(pc.m, pc.url)), b, WentLive)
      .(maps := PutLive(s.maps, PreviewOf(s, b), Publication(pc.url, b)))
  }

  function DoSaveRow(s: State, b: BuildId, ok: bool): (s': State)
    requires At(s, b) && PcOf(s, b).Installed?
    ensures OnlyActed(s, s', b)
  {
    var pc := PcOf(s, b);
    if ok then Did(Moved(s, b, Recorded(pc.m)), b, WroteRow)
               .(rows := s.rows[PreviewOf(s, b) := Row(RowReady, pc.url, b)])
    else Moved(s, b, Unrecorded(pc.m))
  }

  function DoWithdraw(s: State, b: BuildId): (s': State)
    requires At(s, b) && PcOf(s, b).Unrecorded?
    ensures OnlyActed(s, s', b)
  {
    Moved(s, b, Withdrawn(PcOf(s, b).m)).(maps := DropLive(s.maps, PreviewOf(s, b)))
  }

  function DoDeleteRow(s: State, b: BuildId, ok: bool): (s': State)
    requires At(s, b) && PcOf(s, b).Withdrawn?
    ensures OnlyActed(s, s', b)
  {
    Moved(s, b, Leaving(PcOf(s, b).m, Failed)).(rows := if ok then s.rows - {PreviewOf(s, b)} else s.rows)
  }

  /** Retention: any directories of the preview except the build's own. */
  function DoPrune(s: State, b: BuildId, victims: set<BuildId>): (s': State)
    requires At(s, b) && PcOf(s, b).Recorded? && b !in victims
    ensures OnlyActed(s, s', b)
  {
    var p := PreviewOf(s, b);
    Moved(s, b, Leaving(PcOf(s, b).m, Ready))
      .(artifacts := set a | a in s.artifacts && !(a.0 == p && a.1 in victims))
  }

  function DoRelease(s: State, b: BuildId): (s': State)
    requires At(s, b) && PcOf(s, b).Leaving?
    ensures OnlyActed(s, s', b)
  {
    var pc := PcOf(s, b);
    Moved(s, b, Returned(pc.out)).(held := s.held - {pc.m})
  }

  /** Whether recordFailure or recordSkip leaves an existing row alone. */
  predicate Blocks(s: State, p: PreviewId, out: Outcome) {
    p in s.rows && (out == Failed || s.rows[p].state == RowReady || s.rows[p].url != "")
  }

  /** What becomes of the pipeline's result: discarded when the build was superseded or its
      own context is cancelled, recorded when there is no preview, otherwise only reported. */
  function DoSettle(s: State, b: BuildId): (s': State)
    requires At(s, b) && PcOf(s, b).Returned?
    ensures OnlyActed(s, s', b)
  {
    var out := PcOf(s, b).out;
    Moved(s, b,
          if out == Superseded || (b in s.cancelled && !s.stopping) then Finishing(Superseded)
          else if out == Ready then Finishing(Ready)
          else Recording(out, Blocks(s, PreviewOf(s, b), out)))
  }

  /** Nothing is written when the rows could not be listed or the row could not be saved. */
  function DoSaveRecord(s: State, b: BuildId, ok: bool): (s': State)
    requires At(s, b) && PcOf(s, b).Recording?
    ensures OnlyActed(s, s', b)
  {
    var pc := PcOf(s, b);
    if pc.blocked || !ok then Moved(s, b, Finishing(pc.end))
    else Did(Moved(s, b, Finishing(pc.end)), b, RecordedOutcome)
         .(rows := s.rows[PreviewOf(s, b) := Row(if pc.end == Failed then RowFailed else RowSkipped, "", b)])
  }

  function DoFinish(s: State, b: BuildId): (s': State)
    requires At(s, b) && PcOf(s, b).Finishing?
    ensures OnlyActed(s, s', b)
  {
    Moved(s, b, Done(PcOf(s, b).out)).(maps := Deregister(s.maps, PreviewOf(s, b), b))
  }

  // ---------------------------------------------------------------------------------------
  // A teardown, and the dashboard's cancel button
  // ---------------------------------------------------------------------------------------

  predicate Tearing(s: State, t: TeardownId) { 0 <= t < |s.teardowns| }

  function TMoved(s: State, t: TeardownId, pc: TeardownPc): State
    requires Tearing(s, t)
  {
    s.(teardowns := s.teardowns[t := s.teardowns[t].(pc := pc)])
  }

  function DoTeardownFetch(s: State, p: PreviewId): State {
    s.(teardowns := s.teardowns + [Teardown(p, TWaiting(LockOf(s.maps, p)))], maps := WithLock(s.maps, p))
  }

  function DoTeardownAcquire(s: State, t: TeardownId): State
    requires Tearing(s, t) && s.teardowns[t].pc.TWaiting?
  {
    var m := s.teardowns[t].pc.m;
    TMoved(s, t, TLocked(m)).(held := s.held[m := ByTeardown(t)])
  }

  function DoTeardownSection(s: State, t: TeardownId): State
    requires Tearing(s, t) && s.teardowns[t].pc.TLocked?
  {
    var p := s.teardowns[t].preview;
    TMoved(s, t, TTail(s.teardowns[t].pc.m))
      .(maps := TearDown(s.maps, p), cancelled := CancelledWith(s, p), newest := s.newest - {p})
  }

  function DoTeardownRemove(s: State, t: TeardownId): State
    requires Tearing(s, t)
  {
    var p := s.teardowns[t].preview;
    s.(artifacts := set a | a in s.artifacts && a.0 != p)
  }

  function DoTeardownDeleteRow(s: State, t: TeardownId): State
    requires Tearing(s, t)
  {
    s.(rows := s.rows - {s.teardowns[t].preview})
  }

  function DoTeardownRelease(s: State, t: TeardownId): State
    requires Tearing(s, t) && s.teardowns[t].pc.TTail?
  {
    TMoved(s, t, TDone).(held := s.held - {s.teardowns[t].pc.m})
  }

  function DoCancelRunning(s: State, p: PreviewId): State
    requires p in s.maps.running
  {
    s.(maps := Abandon(s.maps, p),
       newest := if p in s.newest && s.newest[p].ClaimedBy? && s.newest[p].b == s.maps.running[p]
                 then s.newest - {p} else s.newest)
  }

  // ---------------------------------------------------------------------------------------
  // Steps
  // ---------------------------------------------------------------------------------------

  /** What a build does next. */
  datatype Act =
    | RegisterBuild
    | EndEarly(out: Outcome)
    | FetchLock
    | Acquire
    | Check(sawCancel: bool)
    | PlaceArtifacts(ok: bool)
    | TakeShare(url: string)
    | NoShare
    | GoLive
    | SaveRow(ok: bool)
    | Withdraw
    | DeleteRow(ok: bool)
    | Prune(victims: set<BuildId>)
    | Release
    | Settle
    | SaveRecord(ok: bool)
    | Finish
    | CancelContext

  /** What a teardown does next; everything it removes may also fail to go. */
  datatype TeardownAct = TAcquire | TSection | TDequeue | TRemove | TDeleteRow | TRelease

  datatype Step =
    | Enqueue(h: HandlerId, p: PreviewId)
    | Clear(h: HandlerId)
    | Claim(p: PreviewId)
    | BuildDoes(b: BuildId, act: Act)
    | TeardownFetch(p: PreviewId)
    | TeardownDoes(t: TeardownId, tact: TeardownAct)
    | CancelRunning(p: PreviewId)
    | CancelQueued(p: PreviewId)
    | Shutdown

  predicate CanAct(s: State, b: BuildId, act: Act)
    requires At(s, b)
  {
    var pc := PcOf(s, b);
    match act
    case RegisterBuild => pc.Claimed?
    case EndEarly(out) => pc.Registered? && (out == Failed || out == Skipped)
    case FetchLock => pc.Registered?
    case Acquire => pc.Waiting? && pc.m !in s.held
    case Check(sawCancel) => pc.Locked? && (sawCancel ==> b in s.cancelled || s.stopping)
    case PlaceArtifacts(_) => pc.Committing?
    case TakeShare(_) => pc.Stored?
    case NoShare => pc.Stored?
    case GoLive => pc.Shared?
    case SaveRow(_) => pc.Installed?
    case Withdraw => pc.Unrecorded?
    case DeleteRow(_) => pc.Withdrawn?
    case Prune(victims) => pc.Recorded? && b !in victims
    case Release => pc.Leaving?
    case Settle => pc.Returned?
    case SaveRecord(_) => pc.Recording?
    case Finish => pc.Finishing?
    case CancelContext => !pc.Claimed? && !IsCurrent(s.maps, PreviewOf(s, b), b)
  }

  function DoAct(s: State, b: BuildId, act: Act): (s': State)
    requires At(s, b) && CanAct(s, b, act)
    ensures OnlyActed(s, s', b)
  {
    match act
    case RegisterBuild => DoRegister(s, b)
    case EndEarly(out) => Moved(s, b, Returned(out))
    case FetchLock => DoFetchLock(s, b)
    case Acquire => DoAcquire(s, b)
    case Check(sawCancel) => DoCheck(s, b, sawCancel)
    case PlaceArtifacts(ok) => DoPlaceArtifacts(s, b, ok)
    case TakeShare(url) => DoTakeShare(s, b, url)
    case NoShare => Moved(s, b, Leaving(PcOf(s, b).m, Failed))
    case GoLive => DoGoLive(s, b)
    case SaveRow(ok) => DoSaveRow(s, b, ok)
    case Withdraw => DoWithdraw(s, b)
    case DeleteRow(ok) => DoDeleteRow(s, b, ok)
    case Prune(victims) => DoPrune(s, b, victims)
    case Release => DoRelease(s, b)
    case Settle => DoSettle(s, b)
    case SaveRecord(ok) => DoSaveRecord(s, b, ok)
    case Finish => DoFinish(s, b)
    case CancelContext => s.(cancelled := s.cancelled + {b})
  }

  predicate CanTear(s: State, t: TeardownId, act: TeardownAct)
    requires Tearing(s, t)
  {
    var pc := s.teardowns[t].pc;
    match act
    case TAcquire => pc.TWaiting? && pc.m !in s.held
    case TSection => pc.TLocked?
    case _ => pc.TTail?
  }

  function DoTear(s: State, t: TeardownId, act: TeardownAct): State
    requires Tearing(s, t) && CanTear(s, t, act)
  {
    match act
    case TAcquire => DoTeardownAcquire(s, t)
    case TSection => DoTeardownSection(s, t)
    case TDequeue => DoDequeue(s, s.teardowns[t].preview)
    case TRemove => DoTeardownRemove(s, t)
    case TDeleteRow => DoTeardownDeleteRow(s, t)
    case TRelease => DoTeardownRelease(s, t)
  }

  predicate Enabled(s: State, step: Step) {
    match step
    case Enqueue(h, _) => h !in s.handlers
    case Clear(h) => h in s.handlers
    case Claim(p) => p in s.jobs
    case BuildDoes(b, act) => At(s, b) && CanAct(s, b, act)
    case TeardownDoes(t, act) => Tearing(s, t) && CanTear(s, t, act)
    case CancelRunning(p) => p in s.maps.running
    case _ => true
  }

  function Apply(s: State, step: Step): State
    requires Enabled(s, step)
  {
    match step
    case Enqueue(h, p) => DoEnqueue(s, h, p)
    case Clear(h) => DoClear(s, h)
    case Claim(p) => DoClaim(s, p)
    case BuildDoes(b, act) => DoAct(s, b, act)
    case TeardownFetch(p) => DoTeardownFetch(s, p)
    case TeardownDoes(t, act) => DoTear(s, t, act)
    case CancelRunning(p) => DoCancelRunning(s, p)
    case CancelQueued(p) => DoDequeue(s, p)
    case Shutdown => s.(stopping := true)
  }

  // ---------------------------------------------------------------------------------------
  // Disciplines and runs
  // ---------------------------------------------------------------------------------------

  /** Hypotheses about the interleaving that the code relies on and does not enforce. */
  datatype Discipline = Discipline(
    ownSection: bool,     // a teardown's section deletes the mutex it holds, or none
    quietTail: bool,      // no build registers while a teardown of its preview cleans up
    atomicRecord: bool,   // the row a failed or skipped build found is the row it replaces
    atomicEnqueue: bool,  // nothing is claimed between a delivery's enqueue and its clear
    atomicClaim: bool,    // nothing is claimed between a claim and its registration
    noShutdown: bool,
    guardedRecord: bool)  // an outcome is recorded only as the commit phase would: by the
                          // registered build, while no build of the preview is past the check

  /** What the code needs; guarding the record as well would need the code to change. */
  const FULL := Discipline(true, true, true, true, true, true, false)

  /** Inside the commit phase proper: past its check. */
  predicate PastCheck(pc: BuildPc) {
    pc.Committing? || pc.Stored? || pc.Shared? || pc.Installed? || pc.Unrecorded? || pc.Withdrawn? || pc.Recorded?
  }

  /** What the section would delete from the map is the mutex the teardown holds. It can be
      another one only if teardowns of one preview overlap before their sections. */
  predicate SectionOwns(s: State, t: TeardownId)
    requires Tearing(s, t) && s.teardowns[t].pc.TLocked?
  {
    var p := s.teardowns[t].preview;
    p in s.maps.commit ==> s.maps.commit[p] == s.teardowns[t].pc.m
  }

  /** No build of p is past its check. */
  ghost predicate Calm(s: State, p: PreviewId) {
    forall b | At(s, b) :: PreviewOf(s, b) == p ==> !PastCheck(PcOf(s, b))
  }

  ghost predicate Obeys(d: Discipline, s: State, step: Step)
    requires Enabled(s, step)
  {
    match step
    case TeardownDoes(t, TSection) => d.ownSection ==> SectionOwns(s, t)
    case BuildDoes(b, RegisterBuild) =>
      d.quietTail ==> forall t | Tearing(s, t) :: s.teardowns[t].preview == PreviewOf(s, b) ==> !s.teardowns[t].pc.TTail?
    case BuildDoes(b, SaveRecord(_)) =>
      && (d.atomicRecord ==> PcOf(s, b).blocked || !Blocks(s, PreviewOf(s, b), PcOf(s, b).end))
      && (d.guardedRecord ==> IsCurrent(s.maps, PreviewOf(s, b), b) && Calm(s, PreviewOf(s, b)))
    case Claim(p) =>
      && (d.atomicEnqueue ==> forall h | h in s.handlers :: s.handlers[h] != p)
      && (d.atomicClaim ==> forall b | At(s, b) :: s.builds[b].preview == p ==> !s.builds[b].pc.Claimed?)
    case Shutdown => !d.noShutdown
    case _ => true
  }

  ghost predicate Allowed(d: Discipline, s: State, step: Step) {
    Enabled(s, step) && Obeys(d, s, step)
  }

  /** What a preview's live publication needs to be served again after a restart. */
  predicate Matches(s: State, p: PreviewId)
    requires p in s.maps.live
  {
    var pub := s.maps.live[p];
    p in s.rows && s.rows[p] == Row(RowReady, pub.url, pub.build) && (p, pub.build) in s.artifacts
  }

  /** The state recovery leaves: nothing in flight. What is live was built by an earlier process;
      whether it is recorded is another matter. */
  ghost predicate Init(s: State) {
    && s.maps.running == map[] && s.maps.commit == map[]
    && s.builds == [] && s.teardowns == [] && s.handlers == map[]
    && s.held == map[] && s.cancelled == {} && !s.stopping
    && s.newest == map[] && s.effects == []
    && (forall p | p in s.maps.live :: s.maps.live[p].build < 0)
    && (forall p | p in s.rows :: s.rows[p].dir < 0)
    && (forall p | p in s.jobs :: s.jobs[p] < s.nextPush)
  }

  // ---------------------------------------------------------------------------------------
  // Runs
  // ---------------------------------------------------------------------------------------

  /** The i-th state of a run is followed by the next one in an allowed step. */
  ghost predicate Moves(d: Discipline, run: seq<State>, i: nat)
    requires i + 1 < |run|
  {
    exists step :: Allowed(d, run[i], step) && run[i + 1] == Apply(run[i], step)
  }

  /** Steps allowed by the discipline, one after the other. */
  ghost predicate Follows(d: Discipline, run: seq<State>) {
    |run| > 0 && forall i: nat {:trigger Moves(d, run, i)} | i + 1 < |run| :: Moves(d, run, i)
  }

  /** A run of the daemon under a discipline: every interleaving, of any length. */
  ghost predicate IsRun(d: Discipline, run: seq<State>) {
    Follows(d, run) && Init(run[0])
  }
}

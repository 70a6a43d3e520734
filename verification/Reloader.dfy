/** The certificate reloader of pkg/reloader/reloader.go as a step system over any number of
    goroutines: fileUpdate's flag, maybeReload's file reads, and the read-write lock around the
    published fields, one shared access a step. */
module Reloading {
  import opened Options

  /** A parsed key pair, named by the two file contents it was parsed from. */
  datatype Pair = NoPair | Pair(cert: string, key: string)

  /** What one reload publishes; also the four fields of the reloader. */
  datatype Fields = Fields(cert: Pair, certPEM: string, keyPEM: string, mtime: int)

  /** maybeReload. `late` records that the mtime field was read after the constructor's own reload
      had returned. */
  datatype Stage =
    | Statting
    | ReadingMtime(st: int)
    | LoadingPair(st: int, seen: int, late: bool)
    | ReadingCert(st: int, seen: int, late: bool, cert: Pair)
    | ReadingKey(st: int, seen: int, late: bool, cert: Pair, certPEM: string)
    | Ready(rec: Fields, seen: int, late: bool)
    | Writing(rec: Fields, seen: int, late: bool, k: nat)
    | Returned

  datatype Pc =
    | Called                       // fileUpdate entered
    | Won(stage: Stage)            // fileUpdate between winning and clearing the flag
    | Constructing(stage: Stage)   // the constructor's own, unguarded maybeReload
    | Done
    | RCalled                      // GetLatestKeyAndCert entered
    | RLocked
    | RHasKey(key: string, keyBy: int)
    | RHasBoth(key: string, cert: string, keyBy: int, certBy: int)
    | RDone(key: string, cert: string, keyBy: int, certBy: int)

  const CONSTRUCTOR: nat := 0
  const NOBODY: int := -1
  const FIELDS: nat := 4

  datatype State = State(
    flag: bool,
    writer: int,              // the holder of the write lock, or NOBODY
    readers: set<nat>,        // the holders of the read lock
    fields: Fields,
    tags: seq<int>,             // which goroutine wrote each field last
    reloads: map<int, Fields>, // what each finished reload read
    pcs: map<nat, Pc>,
    certFile: string, keyFile: string, fileTime: int)

  function Zero(): Fields { Fields(NoPair, "", "", 0) }

  predicate Init(s: State) {
    && !s.flag && s.writer == NOBODY && s.readers == {}
    && s.fields == Zero() && s.tags == [NOBODY, NOBODY, NOBODY, NOBODY]
    && s.reloads == map[NOBODY := Zero()]
    && s.pcs == map[CONSTRUCTOR := Constructing(Statting)]
  }

  datatype Step =
    | Spawn(g: nat) | SpawnReader(g: nat)
    | TryFlag(g: nat) | ClearFlag(g: nat) | ConstructorReturns
    | Reload(g: nat, ok: bool)
    | RLock(g: nat) | RKey(g: nat) | RCert(g: nat) | RUnlock(g: nat)
    | WriteCert(content: string, time: int) | WriteKey(content: string)

  predicate InReload(pc: Pc) { pc.Won? || pc.Constructing? }

  predicate HoldsRead(pc: Pc) { pc.RLocked? || pc.RHasKey? || pc.RHasBoth? }

  function WithStage(pc: Pc, stage: Stage): Pc
    requires InReload(pc)
  {
    if pc.Won? then Won(stage) else Constructing(stage)
  }

  predicate ConstructorDone(s: State) { CONSTRUCTOR in s.pcs && s.pcs[CONSTRUCTOR].Done? }

  predicate Enabled(s: State, e: Step) {
    match e
    case Spawn(g) => g !in s.pcs
    case SpawnReader(g) => g !in s.pcs
    case TryFlag(g) => g in s.pcs && s.pcs[g].Called?
    case ClearFlag(g) => g in s.pcs && s.pcs[g] == Won(Returned)
    case ConstructorReturns => CONSTRUCTOR in s.pcs && s.pcs[CONSTRUCTOR] == Constructing(Returned)
    case Reload(g, ok) =>
      && g in s.pcs && InReload(s.pcs[g]) && !s.pcs[g].stage.Returned?
      && (s.pcs[g].stage.ReadingMtime? ==> s.writer == NOBODY)
      && (s.pcs[g].stage.Ready? ==> s.writer == NOBODY && s.readers == {})
    case RLock(g) => g in s.pcs && s.pcs[g].RCalled? && s.writer == NOBODY
    case RKey(g) => g in s.pcs && s.pcs[g].RLocked?
    case RCert(g) => g in s.pcs && s.pcs[g].RHasKey?
    case RUnlock(g) => g in s.pcs && s.pcs[g].RHasBoth?
    case WriteCert(_, _) => true
    case WriteKey(_) => true
  }

  function SetField(f: Fields, rec: Fields, k: nat): Fields {
    if k == 0 then f.(cert := rec.cert)
    else if k == 1 then f.(certPEM := rec.certPEM)
    else if k == 2 then f.(keyPEM := rec.keyPEM)
    else f.(mtime := rec.mtime)
  }

  /** One access of maybeReload by g; `ok` is false when the file operation fails. */
  function ReloadStep(s: State, g: nat, ok: bool): (t: State)
    requires Enabled(s, Reload(g, ok)) && |s.tags| == FIELDS
    ensures g in t.pcs && InReload(t.pcs[g]) && (t.pcs[g].Won? <==> s.pcs[g].Won?)
    ensures t.pcs == s.pcs[g := t.pcs[g]] && t.flag == s.flag && t.readers == s.readers
  {
    var pc := s.pcs[g];
    match pc.stage
    case Statting => Goto(s, g, if ok then ReadingMtime(s.fileTime) else Returned)
    case ReadingMtime(st) =>
      Goto(s, g, if st > s.fields.mtime then LoadingPair(st, s.fields.mtime, ConstructorDone(s)) else Returned)
    case LoadingPair(st, seen, late) =>
      Goto(s, g, if ok then ReadingCert(st, seen, late, Pair(s.certFile, s.keyFile)) else Returned)
    case ReadingCert(st, seen, late, cert) =>
      Goto(s, g, if ok then ReadingKey(st, seen, late, cert, s.certFile) else Returned)
    case ReadingKey(st, seen, late, cert, certPEM) =>
      if !ok then Goto(s, g, Returned)
      else
        var rec := Fields(cert, certPEM, s.keyFile, st);
        Goto(s, g, Ready(rec, seen, late)).(reloads := s.reloads[g := rec])
    case Ready(rec, seen, late) => Goto(s, g, Writing(rec, seen, late, 0)).(writer := g)
    case Writing(rec, seen, late, k) =>
      if k < FIELDS then
        Goto(s, g, Writing(rec, seen, late, k + 1)).(fields := SetField(s.fields, rec, k), tags := s.tags[k := g])
      else
        Goto(s, g, Returned).(writer := NOBODY)
    case Returned => s
  }

  function Goto(s: State, g: nat, stage: Stage): State
    requires g in s.pcs && InReload(s.pcs[g])
  {
    s.(pcs := s.pcs[g := WithStage(s.pcs[g], stage)])
  }

  function Apply(s: State, e: Step): State
    requires Enabled(s, e) && |s.tags| == FIELDS
  {
    match e
    case Spawn(g) => s.(pcs := s.pcs[g := Called])
    case SpawnReader(g) => s.(pcs := s.pcs[g := RCalled])
    case TryFlag(g) =>
      if s.flag then s.(pcs := s.pcs[g := Done]) else s.(flag := true, pcs := s.pcs[g := Won(Statting)])
    case ClearFlag(g) => s.(flag := false, pcs := s.pcs[g := Done])
    case ConstructorReturns => s.(pcs := s.pcs[CONSTRUCTOR := Done])
    case Reload(g, ok) => ReloadStep(s, g, ok)
    case RLock(g) => s.(readers := s.readers + {g}, pcs := s.pcs[g := RLocked])
    case RKey(g) => s.(pcs := s.pcs[g := RHasKey(s.fields.keyPEM, s.tags[2])])
    case RCert(g) =>
      s.(pcs := s.pcs[g := RHasBoth(s.pcs[g].key, s.fields.certPEM, s.pcs[g].keyBy, s.tags[1])])
    case RUnlock(g) =>
      var p := s.pcs[g];
      s.(readers := s.readers - {g}, pcs := s.pcs[g := RDone(p.key, p.cert, p.keyBy, p.certBy)])
    case WriteCert(content, time) => s.(certFile := content, fileTime := time)
    case WriteKey(content) => s.(keyFile := content)
  }

  // ----- the flag -----

  /** The flag is set exactly while somebody is between winning and clearing it, and that is never two. */
  ghost predicate FlagGuards(s: State) {
    && (s.flag <==> exists g :: g in s.pcs && s.pcs[g].Won?)
    && (forall g, h :: g in s.pcs && h in s.pcs && s.pcs[g].Won? && s.pcs[h].Won? ==> g == h)
    && (forall g :: g in s.pcs && s.pcs[g].Constructing? ==> g == CONSTRUCTOR)
    && CONSTRUCTOR in s.pcs && (s.pcs[CONSTRUCTOR].Constructing? || s.pcs[CONSTRUCTOR].Done?)
  }

  // ----- the lock -----

  predicate LockHolder(s: State, g: nat)
    requires g in s.pcs
  {
    && (g in s.readers <==> HoldsRead(s.pcs[g]))
    && (s.writer == g <==> InReload(s.pcs[g]) && s.pcs[g].stage.Writing?)
    && (InReload(s.pcs[g]) && s.pcs[g].stage.Writing? ==> s.pcs[g].stage.k <= FIELDS)
  }

  /** The write lock excludes every reader, and both locks are held exactly where the code holds them. */
  ghost predicate LockHolders(s: State) {
    && (forall g :: g in s.pcs ==> LockHolder(s, g))
    && (forall g :: g in s.readers ==> g in s.pcs)
    && (s.writer != NOBODY ==> s.readers == {} && s.writer >= 0 && s.writer in s.pcs)
  }

  // ----- what is published -----

  predicate FieldFrom(f: Fields, rec: Fields, k: nat) {
    if k == 0 then f.cert == rec.cert
    else if k == 1 then f.certPEM == rec.certPEM
    else if k == 2 then f.keyPEM == rec.keyPEM
    else f.mtime == rec.mtime
  }

  predicate FieldKnown(s: State, k: nat)
    requires |s.tags| == FIELDS && k < FIELDS
  {
    s.tags[k] in s.reloads && FieldFrom(s.fields, s.reloads[s.tags[k]], k)
  }

  /** What g's reload read is on record from the end of its reading to its return; before that, g has
      published nothing. */
  predicate Recorded(s: State, g: nat)
    requires g in s.pcs
  {
    var pc := s.pcs[g];
    if pc.Called? then g !in s.reloads
    else if !InReload(pc) || pc.stage.Returned? then true
    else if pc.stage.Ready? || pc.stage.Writing? then g in s.reloads && s.reloads[g] == pc.stage.rec
    else g !in s.reloads
  }

  /** Every field holds what its writer's reload read. */
  ghost predicate FieldsFromReloads(s: State)
    requires |s.tags| == FIELDS
  {
    && NOBODY in s.reloads && s.reloads[NOBODY] == Zero()
    && (forall k :: 0 <= k < FIELDS ==> FieldKnown(s, k))
    && (forall g: nat :: g in s.reloads ==> g in s.pcs)
    && (forall g :: g in s.pcs ==> Recorded(s, g))
  }

  /** Outside the write lock all four fields come from one reload; inside it, the fields not yet
      written do. */
  ghost predicate OneReload(s: State)
    requires |s.tags| == FIELDS
  {
    if s.writer == NOBODY then forall k :: 0 <= k < FIELDS ==> s.tags[k] == s.tags[0]
    else s.writer >= 0 && s.writer in s.pcs && InReload(s.pcs[s.writer]) && s.pcs[s.writer].stage.Writing?
         && var w := s.pcs[s.writer].stage.k;
            && (forall k :: 0 <= k < w && k < FIELDS ==> s.tags[k] == s.writer)
            && (forall k :: w <= k < FIELDS ==> s.tags[k] == s.tags[3])
  }

  /** A pair in a reader's hands, from the first field it copied to what it returned, is one
      reload's. */
  predicate ReaderSeesOneReload(s: State, g: nat)
    requires |s.tags| == FIELDS && g in s.pcs
  {
    match s.pcs[g]
    case RHasKey(key, keyBy) => keyBy == s.tags[2] && keyBy in s.reloads && key == s.reloads[keyBy].keyPEM
    case RHasBoth(key, cert, keyBy, certBy) => SamePair(s, key, cert, keyBy, certBy)
    case RDone(key, cert, keyBy, certBy) => SamePair(s, key, cert, keyBy, certBy)
    case _ => true
  }

  ghost predicate ReadersSeeOneReload(s: State)
    requires |s.tags| == FIELDS
  {
    forall g :: g in s.pcs ==> ReaderSeesOneReload(s, g)
  }

  predicate SamePair(s: State, key: string, cert: string, keyBy: int, certBy: int) {
    keyBy == certBy && keyBy in s.reloads && key == s.reloads[keyBy].keyPEM && cert == s.reloads[keyBy].certPEM
  }

  // ----- mtime -----

  predicate HasSeen(st: Stage) {
    st.LoadingPair? || st.ReadingCert? || st.ReadingKey? || st.Ready? || st.Writing?
  }

  function NewTime(st: Stage): int
    requires HasSeen(st)
  {
    if st.Ready? || st.Writing? then st.rec.mtime else st.st
  }

  /** A reload goes on only for a newer file; one that read the mtime field after the constructor's
      reload returned still knows it exactly until it writes the field itself. */
  predicate LateReloadIsCurrent(s: State, g: nat)
    requires g in s.pcs
  {
    InReload(s.pcs[g]) && HasSeen(s.pcs[g].stage) ==>
      var st := s.pcs[g].stage;
      && st.seen < NewTime(st)
      && (st.late ==> s.pcs[g].Won? && ConstructorDone(s)
                      && (!(st.Writing? && st.k == FIELDS) ==> s.fields.mtime == st.seen))
  }

  ghost predicate LateReloadsAreCurrent(s: State) {
    forall g :: g in s.pcs ==> LateReloadIsCurrent(s, g)
  }

  ghost predicate Inv(s: State) {
    && |s.tags| == FIELDS
    && FlagGuards(s) && LockHolders(s) && FieldsFromReloads(s)
    && OneReload(s) && ReadersSeeOneReload(s) && LateReloadsAreCurrent(s)
  }

  lemma InitInv(s: State)
    requires Init(s)
    ensures Inv(s)
  {
    assert s.pcs[CONSTRUCTOR] == Constructing(Statting);
  }

  lemma FlagGuardsReload(s: State, g: nat, ok: bool)
    requires |s.tags| == FIELDS && FlagGuards(s) && Enabled(s, Reload(g, ok))
    ensures FlagGuards(ReloadStep(s, g, ok))
  {
    var s' := ReloadStep(s, g, ok);
    assert forall h :: h in s.pcs ==> h in s'.pcs && (s'.pcs[h].Won? <==> s.pcs[h].Won?);
  }

  lemma FlagGuardsStep(s: State, e: Step)
    requires |s.tags| == FIELDS && FlagGuards(s) && Enabled(s, e)
    ensures FlagGuards(Apply(s, e))
  {
    var s' := Apply(s, e);
    if e.Reload? {
      FlagGuardsReload(s, e.g, e.ok);
    } else {
      if s.flag {
        var w :| w in s.pcs && s.pcs[w].Won?;
        assert e != ClearFlag(w) ==> w in s'.pcs && s'.pcs[w].Won?;
      }
      if e.TryFlag? && !s.flag { assert s'.pcs[e.g].Won?; }
    }
  }

  lemma LockHolderReload(s: State, h: nat, ok: bool, g: nat)
    requires |s.tags| == FIELDS && LockHolders(s) && Enabled(s, Reload(h, ok)) && g in s.pcs
    ensures g in ReloadStep(s, h, ok).pcs && LockHolder(ReloadStep(s, h, ok), g)
  {
    assert LockHolder(s, g) && LockHolder(s, h);
  }

  lemma LockHolderStep(s: State, e: Step, g: nat)
    requires |s.tags| == FIELDS && LockHolders(s) && Enabled(s, e) && g in Apply(s, e).pcs
    ensures LockHolder(Apply(s, e), g)
  {
    if e.Reload? {
      LockHolderReload(s, e.g, e.ok, g);
    } else if g in s.pcs {
      assert LockHolder(s, g);
    }
  }

  lemma LockHoldersStep(s: State, e: Step)
    requires |s.tags| == FIELDS && LockHolders(s) && Enabled(s, e)
    ensures LockHolders(Apply(s, e))
  {
    var s' := Apply(s, e);
    forall g | g in s'.pcs ensures LockHolder(s', g) { LockHolderStep(s, e, g); }
    if s.writer != NOBODY { assert LockHolder(s, s.writer); }
    match e {
      case Reload(g, _) => assert LockHolder(s, g);
      case ClearFlag(g) => assert LockHolder(s, g);
      case _ =>
    }
  }

  lemma FieldKnownStep(s: State, e: Step, k: nat)
    requires |s.tags| == FIELDS && LockHolders(s) && FieldsFromReloads(s) && Enabled(s, e) && k < FIELDS
    ensures FieldKnown(Apply(s, e), k)
  {
    assert FieldKnown(s, k);
    if e.Reload? { assert Recorded(s, e.g); }
  }

  lemma RecordedReload(s: State, h: nat, ok: bool, g: nat)
    requires |s.tags| == FIELDS && Enabled(s, Reload(h, ok)) && g in s.pcs && Recorded(s, g)
    ensures Recorded(ReloadStep(s, h, ok), g)
  {
  }

  lemma RecordedStep(s: State, e: Step, g: nat)
    requires |s.tags| == FIELDS && FieldsFromReloads(s) && Enabled(s, e) && g in Apply(s, e).pcs
    ensures Recorded(Apply(s, e), g)
  {
    if g in s.pcs { assert Recorded(s, g); }
    if e.Reload? { RecordedReload(s, e.g, e.ok, g); }
  }

  lemma FieldsFromReloadsStep(s: State, e: Step)
    requires |s.tags| == FIELDS && LockHolders(s) && FieldsFromReloads(s) && Enabled(s, e)
    ensures FieldsFromReloads(Apply(s, e))
  {
    var s' := Apply(s, e);
    forall k | 0 <= k < FIELDS ensures FieldKnown(s', k) { FieldKnownStep(s, e, k); }
    forall g | g in s'.pcs ensures Recorded(s', g) { RecordedStep(s, e, g); }
  }

  lemma OneReloadReload(s: State, g: nat, ok: bool)
    requires |s.tags| == FIELDS && LockHolders(s) && OneReload(s) && Enabled(s, Reload(g, ok))
    ensures |ReloadStep(s, g, ok).tags| == FIELDS && OneReload(ReloadStep(s, g, ok))
  {
    assert LockHolder(s, g);
  }

  lemma OneReloadStep(s: State, e: Step)
    requires |s.tags| == FIELDS && LockHolders(s) && OneReload(s) && Enabled(s, e)
    ensures |Apply(s, e).tags| == FIELDS && OneReload(Apply(s, e))
  {
    if e.Reload? { OneReloadReload(s, e.g, e.ok); }
  }

  lemma ReaderDuringReload(s: State, h: nat, ok: bool, g: nat)
    requires |s.tags| == FIELDS && Enabled(s, Reload(h, ok)) && Recorded(s, h) && LockHolder(s, h)
    requires s.writer != NOBODY ==> s.readers == {}
    requires g in s.pcs && LockHolder(s, g) && ReaderSeesOneReload(s, g)
    ensures |ReloadStep(s, h, ok).tags| == FIELDS && ReaderSeesOneReload(ReloadStep(s, h, ok), g)
  {
  }

  lemma ReaderStep(s: State, e: Step, g: nat)
    requires |s.tags| == FIELDS && LockHolders(s) && FieldsFromReloads(s) && OneReload(s)
    requires Enabled(s, e) && g in Apply(s, e).pcs && (g in s.pcs ==> ReaderSeesOneReload(s, g))
    ensures ReaderSeesOneReload(Apply(s, e), g)
  {
    if e.Reload? {
      assert Recorded(s, e.g) && LockHolder(s, e.g) && LockHolder(s, g);
      ReaderDuringReload(s, e.g, e.ok, g);
    } else {
      if g in s.pcs { assert LockHolder(s, g); }
      assert FieldKnown(s, 1) && FieldKnown(s, 2);
    }
  }

  lemma LateDuringOtherReload(s: State, h: nat, ok: bool, g: nat)
    requires |s.tags| == FIELDS && FlagGuards(s) && Enabled(s, Reload(h, ok))
    requires g in s.pcs && g != h && LateReloadIsCurrent(s, g)
    ensures LateReloadIsCurrent(ReloadStep(s, h, ok), g)
  {
  }

  lemma LateDuringOwnReload(s: State, g: nat, ok: bool)
    requires |s.tags| == FIELDS && FlagGuards(s) && Enabled(s, Reload(g, ok))
    requires LockHolder(s, g) && LateReloadIsCurrent(s, g)
    ensures LateReloadIsCurrent(ReloadStep(s, g, ok), g)
  {
  }

  lemma LateReloadStep(s: State, e: Step, g: nat)
    requires |s.tags| == FIELDS && FlagGuards(s) && Enabled(s, e) && g in Apply(s, e).pcs
    requires g in s.pcs ==> LockHolder(s, g) && LateReloadIsCurrent(s, g)
    ensures LateReloadIsCurrent(Apply(s, e), g)
  {
    if e.Reload? {
      if e.g == g { LateDuringOwnReload(s, g, e.ok); } else { LateDuringOtherReload(s, e.g, e.ok, g); }
    }
  }

  lemma StepInv(s: State, e: Step)
    requires Inv(s) && Enabled(s, e)
    ensures Inv(Apply(s, e))
  {
    var s' := Apply(s, e);
    FlagGuardsStep(s, e);
    LockHoldersStep(s, e);
    FieldsFromReloadsStep(s, e);
    OneReloadStep(s, e);
    forall g | g in s'.pcs ensures ReaderSeesOneReload(s', g) { ReaderStep(s, e, g); }
    forall g | g in s'.pcs ensures LateReloadIsCurrent(s', g) { LateReloadStep(s, e, g); }
  }

  // ----- runs -----

  /** Executes a schedule; None when a step of it is not enabled. */
  datatype Outcome = Stuck | Reached(state: State)

  function Exec(s: State, schedule: seq<Step>): Outcome
    requires |s.tags| == FIELDS
    decreases |schedule|
  {
    if schedule == [] then Reached(s)
    else if !Enabled(s, schedule[0]) then Stuck
    else Exec(ApplyKeepsTags(s, schedule[0]), schedule[1..])
  }

  function ApplyKeepsTags(s: State, e: Step): (s': State)
    requires |s.tags| == FIELDS && Enabled(s, e)
    ensures |s'.tags| == FIELDS
  {
    Apply(s, e)
  }

  lemma {:induction false} ExecConcat(s: State, a: seq<Step>, b: seq<Step>)
    requires |s.tags| == FIELDS && Exec(s, a).Reached?
    ensures |Exec(s, a).state.tags| == FIELDS && Exec(s, a + b) == Exec(Exec(s, a).state, b)
    decreases |a|
  {
    if a == [] {
      assert a + b == b;
    } else {
      assert (a + b)[1..] == a[1..] + b;
      ExecConcat(ApplyKeepsTags(s, a[0]), a[1..], b);
    }
  }

  lemma {:induction false} RunInv(s: State, schedule: seq<Step>)
    requires Inv(s)
    ensures Exec(s, schedule).Reached? ==> Inv(Exec(s, schedule).state)
    decreases |schedule|
  {
    if schedule != [] && Enabled(s, schedule[0]) {
      StepInv(s, schedule[0]);
      RunInv(Apply(s, schedule[0]), schedule[1..]);
    }
  }

  /** In every state any schedule reaches from start-up, however many goroutines run: one winner of the
      flag at most, the flag set exactly then, the four fields from one reload when the write lock is
      free, and every reader's pair read by one reload. */
  lemma ReloaderSafety(s: State, schedule: seq<Step>)
    requires Init(s) && Exec(s, schedule).Reached?
    ensures var t := Exec(s, schedule).state;
            && (forall g, h :: g in t.pcs && h in t.pcs && t.pcs[g].Won? && t.pcs[h].Won? ==> g == h)
            && (t.flag <==> exists g :: g in t.pcs && t.pcs[g].Won?)
            && (t.writer == NOBODY ==> exists r :: r in t.reloads && t.fields == t.reloads[r])
            && (forall g :: g in t.pcs && t.pcs[g].RDone? ==>
                  exists r :: r in t.reloads && t.pcs[g].key == t.reloads[r].keyPEM
                    && t.pcs[g].cert == t.reloads[r].certPEM)
  {
    InitInv(s);
    RunInv(s, schedule);
    var t := Exec(s, schedule).state;
    if t.writer == NOBODY {
      var r := t.tags[0];
      assert FieldKnown(t, 0) && FieldKnown(t, 1) && FieldKnown(t, 2) && FieldKnown(t, 3);
      assert r in t.reloads && t.fields == t.reloads[r];
    }
    forall g | g in t.pcs && t.pcs[g].RDone?
      ensures exists r :: r in t.reloads && t.pcs[g].key == t.reloads[r].keyPEM && t.pcs[g].cert == t.reloads[r].certPEM
    {
      assert ReaderSeesOneReload(t, g);
    }
  }

  // ----- when the mtime grows -----

  /** g has read the mtime field and is yet to write it. */
  predicate Pending(s: State, g: nat)
    requires g in s.pcs
  {
    InReload(s.pcs[g]) && HasSeen(s.pcs[g].stage) && !(s.pcs[g].stage.Writing? && s.pcs[g].stage.k >= FIELDS)
  }

  /** Every such reload is for a file newer than the recorded one. */
  ghost predicate PendingAreNewer(s: State) {
    forall g :: g in s.pcs && Pending(s, g) ==> s.fields.mtime < NewTime(s.pcs[g].stage)
  }

  /** The step that writes the mtime field. */
  predicate PublishesTime(s: State, e: Step)
    requires Enabled(s, e)
  {
    e.Reload? && s.pcs[e.g].stage.Writing? && s.pcs[e.g].stage.k == 3
  }

  /** Every publication of the schedule raises the mtime. */
  predicate AlwaysRises(s: State, schedule: seq<Step>)
    requires |s.tags| == FIELDS
    decreases |schedule|
  {
    if schedule == [] || !Enabled(s, schedule[0]) then true
    else
      var t := ApplyKeepsTags(s, schedule[0]);
      (PublishesTime(s, schedule[0]) ==> s.fields.mtime < t.fields.mtime) && AlwaysRises(t, schedule[1..])
  }

  lemma OnlyOneReloads(s: State, g: nat, h: nat)
    requires FlagGuards(s) && ConstructorDone(s)
    requires g in s.pcs && h in s.pcs && InReload(s.pcs[g]) && InReload(s.pcs[h])
    ensures g == h
  {
  }

  lemma OwnReloadStaysNewer(s: State, g: nat, ok: bool)
    requires |s.tags| == FIELDS && Enabled(s, Reload(g, ok))
             && (Pending(s, g) ==> s.fields.mtime < NewTime(s.pcs[g].stage))
    ensures var t := ReloadStep(s, g, ok);
            && (Pending(t, g) ==> t.fields.mtime < NewTime(t.pcs[g].stage))
            && (if PublishesTime(s, Reload(g, ok)) then s.fields.mtime < t.fields.mtime
              else s.fields.mtime == t.fields.mtime)
  {
  }

  lemma PendingStep(s: State, e: Step)
    requires Inv(s) && ConstructorDone(s) && PendingAreNewer(s) && Enabled(s, e)
    ensures ConstructorDone(Apply(s, e)) && PendingAreNewer(Apply(s, e))
    ensures if PublishesTime(s, e) then s.fields.mtime < Apply(s, e).fields.mtime
            else s.fields.mtime == Apply(s, e).fields.mtime
  {
    if e.Reload? {
      OwnReloadStaysNewer(s, e.g, e.ok);
      forall h | h in s.pcs && InReload(s.pcs[h]) ensures h == e.g { OnlyOneReloads(s, e.g, h); }
    }
  }

  lemma {:induction false} NewerAlwaysRises(s: State, schedule: seq<Step>)
    requires Inv(s) && ConstructorDone(s) && PendingAreNewer(s)
    ensures AlwaysRises(s, schedule)
    decreases |schedule|
  {
    if schedule != [] && Enabled(s, schedule[0]) {
      StepInv(s, schedule[0]);
      PendingStep(s, schedule[0]);
      NewerAlwaysRises(Apply(s, schedule[0]), schedule[1..]);
    }
  }

  /** Reloads, fields and write lock stay as they are. */
  ghost predicate ReadersMove(s: State, t: State) {
    && t.fields == s.fields && t.writer == s.writer && t.tags == s.tags
    && (forall g :: g in s.pcs && InReload(s.pcs[g]) ==> g in t.pcs && t.pcs[g] == s.pcs[g])
  }

  function ReaderStepsLeft(pc: Pc): nat {
    match pc
    case RLocked => 3
    case RHasKey(_, _) => 2
    case RHasBoth(_, _, _, _) => 1
    case _ => 0
  }

  /** A reader inside can leave. */
  lemma {:induction false} ReaderLeaves(s: State, g: nat) returns (schedule: seq<Step>, t: State)
    requires |s.tags| == FIELDS && g in s.pcs && HoldsRead(s.pcs[g])
    ensures Exec(s, schedule) == Reached(t) && ReadersMove(s, t) && t.readers == s.readers - {g}
    decreases ReaderStepsLeft(s.pcs[g])
  {
    var e := if s.pcs[g].RLocked? then RKey(g) else if s.pcs[g].RHasKey? then RCert(g) else RUnlock(g);
    t := ApplyKeepsTags(s, e);
    if e.RUnlock? {
      schedule := [e];
      assert Exec(t, []) == Reached(t);
    } else {
      var rest;
      rest, t := ReaderLeaves(t, g);
      schedule := [e] + rest;
    }
  }

  /** So all of them can. */
  lemma {:induction false} ReadersLeave(s: State) returns (schedule: seq<Step>, t: State)
    requires Inv(s)
    ensures Exec(s, schedule) == Reached(t) && ReadersMove(s, t) && t.readers == {}
    decreases |s.readers|
  {
    if s.readers == {} {
      schedule, t := [], s;
    } else {
      var g :| g in s.readers;
      assert LockHolder(s, g);
      var first, rest;
      first, t := ReaderLeaves(s, g);
      RunInv(s, first);
      assert ReadersMove(s, t);
      var u := t;
      rest, t := ReadersLeave(u);
      ExecConcat(s, first, rest);
      schedule := first + rest;
    }
  }

  function StepsToPublish(st: Stage): nat {
    match st
    case LoadingPair(_, _, _) => 8
    case ReadingCert(_, _, _, _) => 7
    case ReadingKey(_, _, _, _, _) => 6
    case Ready(_, _, _) => 5
    case Writing(_, _, _, k) => if k < FIELDS then FIELDS - k else 0
    case _ => 0
  }

  /** A reload for a file that is not newer goes on to publish it all the same. */
  lemma {:induction false} StaleReloadPublishes(s: State, g: nat) returns (schedule: seq<Step>)
    requires |s.tags| == FIELDS && g in s.pcs && Pending(s, g) && NewTime(s.pcs[g].stage) <= s.fields.mtime
    requires s.readers == {} && (s.pcs[g].stage.Writing? || s.writer == NOBODY)
    ensures Exec(s, schedule).Reached? && !AlwaysRises(s, schedule)
    decreases StepsToPublish(s.pcs[g].stage)
  {
    var e := Reload(g, true);
    var t := ApplyKeepsTags(s, e);
    if PublishesTime(s, e) {
      schedule := [e];
      assert Exec(t, []) == Reached(t);
    } else {
      var rest := StaleReloadPublishes(t, g);
      schedule := [e] + rest;
      assert schedule[1..] == rest;
    }
  }

  lemma {:induction false} RisesOnward(s: State, a: seq<Step>, b: seq<Step>)
    requires |s.tags| == FIELDS && Exec(s, a).Reached? && AlwaysRises(s, a + b)
    ensures |Exec(s, a).state.tags| == FIELDS && AlwaysRises(Exec(s, a).state, b)
    decreases |a|
  {
    if a == [] {
      assert a + b == b;
    } else {
      assert (a + b)[1..] == a[1..] + b;
      RisesOnward(ApplyKeepsTags(s, a[0]), a[1..], b);
    }
  }

  lemma StaleReloadLowersTime(s: State, g: nat) returns (schedule: seq<Step>)
    requires Inv(s) && ConstructorDone(s) && g in s.pcs && Pending(s, g) && NewTime(s.pcs[g].stage) <= s.fields.mtime
    ensures Exec(s, schedule).Reached? && !AlwaysRises(s, schedule)
  {
    var first, t := ReadersLeave(s);
    if s.writer != NOBODY {
      assert LockHolder(s, s.writer);
      OnlyOneReloads(s, g, s.writer);
    }
    var rest := StaleReloadPublishes(t, g);
    ExecConcat(s, first, rest);
    schedule := first + rest;
    if AlwaysRises(s, schedule) { RisesOnward(s, first, rest); }
  }

  /** Once the constructor's reload has returned, every publication of every schedule raises the mtime
      exactly when each reload that has read the mtime field and is yet to write it is for a file newer
      than the recorded one. */
  lemma TimeGrowsExactly(s: State)
    requires Inv(s) && ConstructorDone(s)
    ensures (forall schedule | Exec(s, schedule).Reached? :: AlwaysRises(s, schedule)) <==> PendingAreNewer(s)
  {
    if PendingAreNewer(s) {
      forall schedule | Exec(s, schedule).Reached? ensures AlwaysRises(s, schedule) { NewerAlwaysRises(s, schedule); }
    } else {
      var g :| g in s.pcs && Pending(s, g) && NewTime(s.pcs[g].stage) <= s.fields.mtime;
      var schedule := StaleReloadLowersTime(s, g);
    }
  }

  /** How often a schedule publishes. */
  function Publishes(s: State, schedule: seq<Step>): nat
    requires |s.tags| == FIELDS
    decreases |schedule|
  {
    if schedule == [] || !Enabled(s, schedule[0]) then 0
    else (if PublishesTime(s, schedule[0]) then 1 else 0) + Publishes(ApplyKeepsTags(s, schedule[0]), schedule[1..])
  }

  /** From then on the mtime grows with every publication and at no other step. */
  lemma {:induction false} TimeGrowsWithEveryPublish(s: State, schedule: seq<Step>)
    requires Inv(s) && ConstructorDone(s) && PendingAreNewer(s) && Exec(s, schedule).Reached?
    ensures s.fields.mtime + Publishes(s, schedule) <= Exec(s, schedule).state.fields.mtime
    ensures Publishes(s, schedule) == 0 ==> s.fields.mtime == Exec(s, schedule).state.fields.mtime
    decreases |schedule|
  {
    if schedule != [] {
      StepInv(s, schedule[0]);
      PendingStep(s, schedule[0]);
      TimeGrowsWithEveryPublish(Apply(s, schedule[0]), schedule[1..]);
    }
  }

  /** The constructor's reload has returned and every reload under way read the mtime field since. */
  ghost predicate Settled(s: State) {
    ConstructorDone(s)
    && forall g :: g in s.pcs && InReload(s.pcs[g]) && HasSeen(s.pcs[g].stage) ==> s.pcs[g].stage.late
  }

  /** That is one way to be so, as when no reload is under way at all. */
  lemma SettledTimeGrows(s: State, schedule: seq<Step>)
    requires Inv(s) && Settled(s)
    ensures PendingAreNewer(s) && AlwaysRises(s, schedule)
  {
    forall g | g in s.pcs && Pending(s, g) ensures s.fields.mtime < NewTime(s.pcs[g].stage) {
      assert LateReloadIsCurrent(s, g);
    }
    NewerAlwaysRises(s, schedule);
  }

  // ----- one goroutine running alone, and two overlapping -----

  /** n further accesses of g's maybeReload, none of them failing. */
  function Accesses(g: nat, n: nat): seq<Step> {
    if n == 0 then [] else [Reload(g, true)] + Accesses(g, n - 1)
  }

  lemma OneAccess(s: State, g: nat, n: nat)
    requires |s.tags| == FIELDS && n > 0 && Enabled(s, Reload(g, true))
    ensures |ReloadStep(s, g, true).tags| == FIELDS
    ensures Exec(s, Accesses(g, n)) == Exec(ReloadStep(s, g, true), Accesses(g, n - 1))
  {
    assert Accesses(g, n)[1..] == Accesses(g, n - 1);
    assert |ApplyKeepsTags(s, Reload(g, true)).tags| == FIELDS;
  }

  /** What maybeReload does to the fields, given the results of its four file accesses. */
  function Reloaded(f: Fields, stat: Option<int>, cert: Option<Pair>, certPEM: Option<string>,
                    keyPEM: Option<string>): Fields {
    if stat.Some? && stat.value > f.mtime && cert.Some? && certPEM.Some? && keyPEM.Some?
    then Fields(cert.value, certPEM.value, keyPEM.value, stat.value) else f
  }

  lemma PairReadAlone(s: State, g: nat, n: nat) returns (t: State)
    requires |s.tags| == FIELDS && g in s.pcs && InReload(s.pcs[g]) && s.pcs[g].stage.LoadingPair?
    ensures var st := s.pcs[g].stage;
            t == Goto(s, g, ReadingKey(st.st, st.seen, st.late, Pair(s.certFile, s.keyFile), s.certFile))
    ensures Exec(s, Accesses(g, n + 2)) == Exec(t, Accesses(g, n))
  {
    OneAccess(s, g, n + 2);
    t := ReloadStep(s, g, true);
    OneAccess(t, g, n + 1);
    t := ReloadStep(t, g, true);
    assert t.pcs == s.pcs[g := t.pcs[g]];
  }

  lemma ReadAlone(s: State, g: nat, n: nat) returns (t: State)
    requires |s.tags| == FIELDS && g in s.pcs && InReload(s.pcs[g]) && s.pcs[g].stage.LoadingPair?
    ensures var st := s.pcs[g].stage;
            var rec := Fields(Pair(s.certFile, s.keyFile), s.certFile, s.keyFile, st.st);
            t == s.(reloads := s.reloads[g := rec],
              pcs := s.pcs[g := WithStage(s.pcs[g], Ready(rec, st.seen, st.late))])
    ensures Exec(s, Accesses(g, n + 3)) == Exec(t, Accesses(g, n))
  {
    t := PairReadAlone(s, g, n + 1);
    OneAccess(t, g, n + 1);
    t := ReloadStep(t, g, true);
    assert t.pcs == s.pcs[g := t.pcs[g]];
  }

  /** The second half of a reload that nobody interrupts: nine accesses publish the files. */
  lemma PublishAlone(s: State, g: nat) returns (t: State)
    requires |s.tags| == FIELDS && g in s.pcs && InReload(s.pcs[g]) && s.pcs[g].stage.LoadingPair?
    requires s.writer == NOBODY && s.readers == {}
    ensures Exec(s, Accesses(g, 9)) == Reached(t)
    ensures t.fields == Fields(Pair(s.certFile, s.keyFile), s.certFile, s.keyFile, s.pcs[g].stage.st)
    ensures t == s.(fields := t.fields, tags := [g, g, g, g], reloads := s.reloads[g := t.fields],
                    pcs := s.pcs[g := WithStage(s.pcs[g], Returned)])
  {
    t := ReadAlone(s, g, 6);
    t := LockAlone(t, g, 5);
    t := WriteAlone(t, g);
    assert t.pcs == s.pcs[g := WithStage(s.pcs[g], Returned)];
  }

  lemma LockAlone(s: State, g: nat, n: nat) returns (t: State)
    requires |s.tags| == FIELDS && g in s.pcs && InReload(s.pcs[g]) && s.pcs[g].stage.Ready?
    requires s.writer == NOBODY && s.readers == {}
    ensures var st := s.pcs[g].stage;
            t == s.(writer := g, pcs := s.pcs[g := WithStage(s.pcs[g], Writing(st.rec, st.seen, st.late, 0))])
    ensures Exec(s, Accesses(g, n + 1)) == Exec(t, Accesses(g, n))
  {
    OneAccess(s, g, n + 1);
    t := ReloadStep(s, g, true);
  }

  lemma WriteAlone(s: State, g: nat) returns (t: State)
    requires |s.tags| == FIELDS && g in s.pcs && InReload(s.pcs[g]) && s.pcs[g].stage.Writing? && s.pcs[g].stage.k == 0
    ensures Exec(s, Accesses(g, 5)) == Reached(t)
    ensures t.fields == s.pcs[g].stage.rec
    ensures t == s.(fields := t.fields, tags := [g, g, g, g], writer := NOBODY,
                    pcs := s.pcs[g := WithStage(s.pcs[g], Returned)])
  {
    var s1 := ReloadStep(s, g, true);
    OneAccess(s, g, 5);
    var s2 := ReloadStep(s1, g, true);
    OneAccess(s1, g, 4);
    var s3 := ReloadStep(s2, g, true);
    OneAccess(s2, g, 3);
    var s4 := ReloadStep(s3, g, true);
    OneAccess(s3, g, 2);
    t := ReloadStep(s4, g, true);
    OneAccess(s4, g, 1);
    assert t.pcs == s.pcs[g := WithStage(s.pcs[g], Returned)];
    assert t.tags == [g, g, g, g];
  }

  /** A reader that nobody interrupts returns the stored key and certificate, which one reload read. */
  lemma ReaderAlone(s: State, g: nat) returns (t: State)
    requires Inv(s) && g in s.pcs && s.pcs[g].RCalled? && s.writer == NOBODY
    ensures Exec(s, [RLock(g), RKey(g), RCert(g), RUnlock(g)]) == Reached(t) && t.fields == s.fields
    ensures g in t.pcs && t.pcs[g].RDone? && t.pcs[g].key == s.fields.keyPEM && t.pcs[g].cert == s.fields.certPEM
    ensures exists r :: r in t.reloads && t.pcs[g].key == t.reloads[r].keyPEM && t.pcs[g].cert == t.reloads[r].certPEM
  {
    var e := [RLock(g), RKey(g), RCert(g), RUnlock(g)];
    var s1 := ApplyKeepsTags(s, RLock(g));
    var s2 := ApplyKeepsTags(s1, RKey(g));
    var s3 := ApplyKeepsTags(s2, RCert(g));
    t := ApplyKeepsTags(s3, RUnlock(g));
    assert e[1..] == [RKey(g), RCert(g), RUnlock(g)] && e[1..][1..] == [RCert(g), RUnlock(g)];
    assert [RCert(g), RUnlock(g)][1..] == [RUnlock(g)] && [RUnlock(g)][1..] == [];
    assert Exec(s3, [RUnlock(g)]) == Reached(t);
    assert Exec(s2, [RCert(g), RUnlock(g)]) == Reached(t);
    assert FieldKnown(s, 1) && FieldKnown(s, 2);
    assert s.tags[1] in t.reloads;
  }

  lemma OneAttempt(s: State, g: nat, ok: bool, rest: seq<Step>)
    requires |s.tags| == FIELDS && Enabled(s, Reload(g, ok))
    ensures |ReloadStep(s, g, ok).tags| == FIELDS
    ensures Exec(s, [Reload(g, ok)] + rest) == Exec(ReloadStep(s, g, ok), rest)
  {
    assert ([Reload(g, ok)] + rest)[1..] == rest;
    assert |ApplyKeepsTags(s, Reload(g, ok)).tags| == FIELDS;
  }

  /** The accesses of one maybeReload, up to the first file operation that fails. */
  function Attempt(g: nat, newer: bool, statOk: bool, pairOk: bool, certOk: bool, keyOk: bool): seq<Step> {
    [Reload(g, statOk)]
    + if !statOk then []
      else [Reload(g, true)] + if newer then ReadAttempt(g, pairOk, certOk, keyOk) else []
  }

  function ReadAttempt(g: nat, pairOk: bool, certOk: bool, keyOk: bool): seq<Step> {
    [Reload(g, pairOk)]
    + if !pairOk then []
      else [Reload(g, certOk)] + if certOk then [Reload(g, keyOk)] + (if keyOk then Accesses(g, 6) else []) else []
  }

  lemma FilesAttempted(s: State, g: nat, pairOk: bool, certOk: bool, keyOk: bool) returns (t: State)
    requires |s.tags| == FIELDS && g in s.pcs && InReload(s.pcs[g]) && s.pcs[g].stage.LoadingPair?
    requires s.writer == NOBODY && s.readers == {} && !(pairOk && certOk && keyOk)
    ensures Exec(s, ReadAttempt(g, pairOk, certOk, keyOk)) == Reached(t)
    ensures t == Goto(s, g, Returned)
  {
    if !pairOk {
      OneAttempt(s, g, false, []);
      t := ReloadStep(s, g, false);
    } else {
      var last := if certOk then [Reload(g, keyOk)] else [];
      OneAttempt(s, g, true, [Reload(g, certOk)] + last);
      t := ReloadStep(s, g, true);
      OneAttempt(t, g, certOk, last);
      t := ReloadStep(t, g, certOk);
      if certOk {
        OneAttempt(t, g, false, []);
        assert [Reload(g, false)] + [] == [Reload(g, false)];
        t := ReloadStep(t, g, false);
      }
      assert last + [] == last;
    }
    assert t.pcs == s.pcs[g := t.pcs[g]];
  }

  /** A winner of the flag that nobody interrupts, whichever of its file operations fail, ends having
      published all four fields when the file is newer and none of them failed, and nothing otherwise:
      what MaybeReload computes. */
  lemma ReloadAlone(s: State, g: nat, statOk: bool, pairOk: bool, certOk: bool, keyOk: bool) returns (t: State)
    requires |s.tags| == FIELDS && g in s.pcs && InReload(s.pcs[g]) && s.pcs[g].stage.Statting?
    requires s.writer == NOBODY && s.readers == {}
    ensures Exec(s, Attempt(g, s.fileTime > s.fields.mtime, statOk, pairOk, certOk, keyOk)) == Reached(t)
    ensures t.pcs == s.pcs[g := WithStage(s.pcs[g], Returned)]
    ensures t.fields == if statOk && s.fileTime > s.fields.mtime && pairOk && certOk && keyOk
                        then Fields(Pair(s.certFile, s.keyFile), s.certFile, s.keyFile, s.fileTime) else s.fields
    ensures t.fields == Reloaded(s.fields, Got(statOk, s.fileTime), Got(pairOk, Pair(s.certFile, s.keyFile)),
                                 Got(certOk, s.certFile), Got(keyOk, s.keyFile))
  {
    var newer := s.fileTime > s.fields.mtime;
    if !statOk {
      OneAttempt(s, g, false, []);
      t := ReloadStep(s, g, false);
    } else {
      var files := if newer then ReadAttempt(g, pairOk, certOk, keyOk) else [];
      OneAttempt(s, g, true, [Reload(g, true)] + files);
      t := ReloadStep(s, g, true);
      OneAttempt(t, g, true, files);
      var u := ReloadStep(t, g, true);
      assert u.pcs == s.pcs[g := u.pcs[g]];
      t := u;
      if newer {
        t := FilesRead(u, g, pairOk, certOk, keyOk);
        assert t.pcs == s.pcs[g := t.pcs[g]];
      }
    }
  }

  lemma FilesRead(s: State, g: nat, pairOk: bool, certOk: bool, keyOk: bool) returns (t: State)
    requires |s.tags| == FIELDS && g in s.pcs && InReload(s.pcs[g]) && s.pcs[g].stage.LoadingPair?
    requires s.writer == NOBODY && s.readers == {}
    ensures Exec(s, ReadAttempt(g, pairOk, certOk, keyOk)) == Reached(t)
    ensures t.pcs == s.pcs[g := WithStage(s.pcs[g], Returned)]
    ensures t.fields == if pairOk && certOk && keyOk
                        then Fields(Pair(s.certFile, s.keyFile), s.certFile, s.keyFile, s.pcs[g].stage.st) else s.fields
  {
    if pairOk && certOk && keyOk {
      t := PublishAlone(s, g);
      ThreeAccesses(g);
    } else {
      t := FilesAttempted(s, g, pairOk, certOk, keyOk);
    }
  }

  lemma ThreeAccesses(g: nat)
    ensures ReadAttempt(g, true, true, true) == Accesses(g, 9)
  {
    assert Accesses(g, 9) == [Reload(g, true)] + Accesses(g, 8);
    assert Accesses(g, 8) == [Reload(g, true)] + Accesses(g, 7);
    assert Accesses(g, 7) == [Reload(g, true)] + Accesses(g, 6);
  }

  function Got<T>(ok: bool, value: T): Option<T> { if ok then Some(value) else None }

  lemma OverlapOpening(s: State, w: nat) returns (e: seq<Step>, t: State)
    requires Init(s) && s.fileTime == 5 && w != CONSTRUCTOR
    ensures Exec(s, e) == Reached(t) && |t.tags| == FIELDS
    ensures t.writer == NOBODY && t.readers == {}
    ensures t.pcs == map[CONSTRUCTOR := Constructing(LoadingPair(7, 0, false)), w := Won(LoadingPair(5, 0, false))]
  {
    e := [Spawn(w), TryFlag(w), Reload(w, true), Reload(w, true), WriteCert("new", 7),
          Reload(CONSTRUCTOR, true), Reload(CONSTRUCTOR, true)];
    var s1 := Apply(s, e[0]);
    var s2 := Apply(s1, e[1]);
    assert s2.pcs == map[CONSTRUCTOR := Constructing(Statting), w := Won(Statting)];
    var s3 := Apply(s2, e[2]);
    var s4 := Apply(s3, e[3]);
    assert s4.pcs == map[CONSTRUCTOR := Constructing(Statting), w := Won(LoadingPair(5, 0, false))];
    var s5 := Apply(s4, e[4]);
    var s6 := Apply(s5, e[5]);
    t := Apply(s6, e[6]);
    ExecSeven(s, e, s1, s2, s3, s4, s5, s6, t);
  }

  /** Why `late` is needed: a watcher's reload that overlaps the constructor's can publish an older
      mtime over a newer one. */
  lemma OverlapLowersTime(s: State) returns (schedule: seq<Step>, rest: seq<Step>)
    requires Init(s) && s.fileTime == 5
    ensures Exec(s, schedule).Reached? && ConstructorDone(Exec(s, schedule).state)
    ensures Exec(s, schedule + rest).Reached?
    ensures Exec(s, schedule + rest).state.fields.mtime < Exec(s, schedule).state.fields.mtime
  {
    var w: nat := 1;
    var open, s7 := OverlapOpening(s, w);
    var t := PublishAlone(s7, CONSTRUCTOR);
    ExecConcat(s, open, Accesses(CONSTRUCTOR, 9));
    var t' := t.(pcs := t.pcs[CONSTRUCTOR := Done]);
    assert Exec(t, [ConstructorReturns]) == Reached(t') by {
      assert [ConstructorReturns][1..] == [];
    }
    ExecConcat(s, open + Accesses(CONSTRUCTOR, 9), [ConstructorReturns]);
    schedule := open + Accesses(CONSTRUCTOR, 9) + [ConstructorReturns];
    rest := Accesses(w, 9);
    var end := PublishAlone(t', w);
    ExecConcat(s, schedule, rest);
  }

  lemma ExecSeven(s: State, e: seq<Step>, s1: State, s2: State, s3: State, s4: State, s5: State, s6: State, s7: State)
    requires |e| == 7 && |s.tags| == FIELDS
    requires Enabled(s, e[0]) && s1 == ApplyKeepsTags(s, e[0])
    requires Enabled(s1, e[1]) && s2 == ApplyKeepsTags(s1, e[1])
    requires Enabled(s2, e[2]) && s3 == ApplyKeepsTags(s2, e[2])
    requires Enabled(s3, e[3]) && s4 == ApplyKeepsTags(s3, e[3])
    requires Enabled(s4, e[4]) && s5 == ApplyKeepsTags(s4, e[4])
    requires Enabled(s5, e[5]) && s6 == ApplyKeepsTags(s5, e[5])
    requires Enabled(s6, e[6]) && s7 == ApplyKeepsTags(s6, e[6])
    ensures Exec(s, e) == Reached(s7)
  {
    assert Exec(s6, e[6..]) == Reached(s7);
    assert Exec(s5, e[5..]) == Exec(s6, e[5..][1..]) && e[5..][1..] == e[6..];
    assert Exec(s4, e[4..]) == Exec(s5, e[4..][1..]) && e[4..][1..] == e[5..];
    assert Exec(s3, e[3..]) == Exec(s4, e[3..][1..]) && e[3..][1..] == e[4..];
    assert Exec(s2, e[2..]) == Exec(s3, e[2..][1..]) && e[2..][1..] == e[3..];
    assert Exec(s1, e[1..]) == Exec(s2, e[1..][1..]) && e[1..][1..] == e[2..];
  }

  // ----- the object -----

  class CertReloader {
    var cond: bool
    var cert: Pair
    var certPEM: string
    var keyPEM: string
    var mtime: int

    ghost function Snapshot(): Fields
      reads this
    {
      Fields(cert, certPEM, keyPEM, mtime)
    }

    constructor ()
      ensures !cond && Snapshot() == Zero()
    {
      cond, cert, certPEM, keyPEM, mtime := false, NoPair, "", "", 0;
    }

    /** maybeReload between two lock holders, on the results of its file accesses. */
    method MaybeReload(stat: Option<int>, load: Option<Pair>, readCert: Option<string>, readKey: Option<string>)
      returns (ok: bool)
      modifies this
      ensures cond == old(cond)
      ensures Snapshot() == Reloaded(old(Snapshot()), stat, load, readCert, readKey)
      ensures ok <==> stat.Some? && (stat.value > old(mtime) ==> load.Some? && readCert.Some? && readKey.Some?)
      ensures !ok || stat.value <= old(mtime) ==> Snapshot() == old(Snapshot())
      ensures ok && stat.value > old(mtime) ==>
                cert == load.value && certPEM == readCert.value && keyPEM == readKey.value && mtime == stat.value
    {
      if stat.None? { return false; }
      if !(stat.value > mtime) { return true; }
      if load.None? || readCert.None? || readKey.None? { return false; }
      cert := load.value;
      certPEM := readCert.value;
      keyPEM := readKey.value;
      mtime := stat.value;
      return true;
    }

    /** fileUpdate: does nothing while another call is between winning and clearing the flag. */
    method FileUpdate(stat: Option<int>, load: Option<Pair>, readCert: Option<string>, readKey: Option<string>)
      modifies this
      ensures cond == old(cond)
      ensures Snapshot()
              == if !old(cond) && stat.Some? && stat.value > old(mtime) && load.Some? && readCert.Some? && readKey.Some?
                 then Fields(load.value, readCert.value, readKey.value, stat.value) else old(Snapshot())
    {
      if !cond {
        cond := true;
        var ok := MaybeReload(stat, load, readCert, readKey);
        cond := false;
      }
    }

    method GetLatestKeyAndCert() returns (k: string, c: string)
      ensures k == keyPEM && c == certPEM
    {
      k := keyPEM;
      c := certPEM;
    }
  }
}

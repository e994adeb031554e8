/** Recovery of the controller (crates/control/src/server.rs) from its snapshot and its
    journal, cut at any point. */
module Recovery {
  import opened ResourceGraph
  import opened Kernel
  import opened Authority
  import opened Runs
  import opened Replay
  import opened Journal
  import opened ClusterObject

  /** Desired state of the controller, opaque to recovery. */
  type ServiceState = nat

  const EMPTY_STATE: ServiceState := 0

  datatype Record = Record(sequence: nat, command: Option<Command>, state: ServiceState)

  datatype Snapshot = Snapshot(sequence: nat, cluster: Kernel, state: ServiceState)

  datatype Disk = Disk(snapshot: Option<Snapshot>, log: Bytes)

  datatype Controller = Controller(k: Kernel, state: ServiceState, sequence: nat)

  /* ---------- what a history of records means ---------- */

  ghost predicate Numbered(h: seq<Record>) {
    forall i :: 0 <= i < |h| ==> h[i].sequence == i + 1
  }

  /** The decisions of a history, replayed from nothing. */
  ghost function Rebuilt(h: seq<Record>): Option<Kernel> {
    if h == [] then Some(ReplayStart())
    else
      match Rebuilt(h[..|h| - 1])
      case None => None
      case Some(k) =>
        var c := h[|h| - 1].command;
        if c.None? then Some(k)
        else
          var o := Step(k, c.value);
          if o.Accepted? then Some(o.k) else None
  }

  function StateAfter(h: seq<Record>): ServiceState {
    if h == [] then EMPTY_STATE else h[|h| - 1].state
  }

  /** The controller stands where the history ends. */
  ghost predicate Stands(x: Controller, h: seq<Record>) {
    && Rebuilt(h).Some? && Mirrors(Rebuilt(h).value, x.k)
    && x.k.agreed && !x.k.replaying && Inv(x.k) && x.state == StateAfter(h) && x.sequence == |h|
  }

  /* ---------- booting ---------- */

  function Loaded(snapshot: Option<Snapshot>): Controller {
    match snapshot
    case None => Controller(Initial(), EMPTY_STATE, 0)
    case Some(s) => Controller(s.cluster, s.state, s.sequence)
  }

  ghost function BootStep(x: Controller, compacted: nat, r: Record): Option<Controller> {
    if r.sequence <= compacted then Some(x)
    else if r.sequence != x.sequence + 1 then None
    else if r.command.None? then Some(Controller(x.k, r.state, r.sequence))
    else
      var o := Step(x.k.(replaying := true), r.command.value);
      if o.Accepted? then Some(Controller(o.k.(replaying := false), r.state, r.sequence)) else None
  }

  ghost function BootAll(x: Controller, compacted: nat, records: seq<Record>): Option<Controller> {
    if records == [] then Some(x)
    else
      match BootAll(x, compacted, records[..|records| - 1])
      case None => None
      case Some(y) => BootStep(y, compacted, records[|records| - 1])
  }

  ghost function Booted(c: Codec<Record>, disk: Disk): Option<Controller> {
    match Parsed(c, disk.log)
    case None => None
    case Some(records) => BootAll(Loaded(disk.snapshot), Loaded(disk.snapshot).sequence, records)
  }

  /* ---------- what the disk holds ---------- */

  ghost predicate LogHolds(c: Codec<Record>, log: Bytes, h: seq<Record>, from: nat, tail: Bytes)
    requires from <= |h|
  {
    NEWLINE !in tail && log == Written(c, h[from..]) + tail
  }

  /** The snapshot stands where some prefix of the history ends, and the log holds every
      record after it, possibly some before it, and possibly an incomplete last line. */
  ghost predicate DiskHolds(c: Codec<Record>, disk: Disk, h: seq<Record>, from: nat, tail: Bytes) {
    var x := Loaded(disk.snapshot);
    && Numbered(h) && Rebuilt(h).Some? && from <= x.sequence <= |h|
    && Stands(x, h[..x.sequence])
    && LogHolds(c, disk.log, h, from, tail)
  }

  lemma EmptyDisk(c: Codec<Record>)
    ensures DiskHolds(c, Disk(None, []), [], 0, [])
  {
    hide Inv, Step;
    InitialInv();
    StartStands();
    EmptyLog(c, []);
    hide Stands, LogHolds;
    var none: seq<Record> := [];
    assert none[..0] == none;
  }

  lemma StartStands()
    ensures Stands(Loaded(None), []) && Numbered([])
  {
    hide Inv, Step;
    InitialInv();
    assert Mirrors(ReplayStart(), Initial());
  }

  lemma RebuiltStep(h: seq<Record>, r: Record)
    requires Rebuilt(h).Some?
    ensures Rebuilt(h + [r]) ==
            if r.command.None? then Rebuilt(h)
            else if Step(Rebuilt(h).value, r.command.value).Accepted?
            then Some(Step(Rebuilt(h).value, r.command.value).k)
            else None
  {
  }

  lemma {:induction false} RebuiltPrefix(h: seq<Record>, n: nat)
    requires n <= |h| && Rebuilt(h).Some?
    ensures Rebuilt(h[..n]).Some?
  {
    hide Step, ReplayStart;
    if n == |h| {
      assert h[..n] == h;
    } else {
      assert h[..|h| - 1][..n] == h[..n];
      RebuiltPrefix(h[..|h| - 1], n);
    }
  }

  /** Replaying one more record, from whatever clock the controller was loaded with. */
  lemma StandsNext(x: Controller, h: seq<Record>, r: Record, compacted: nat)
    requires Stands(x, h) && Rebuilt(h + [r]).Some? && r.sequence == |h| + 1 && compacted <= |h|
    ensures BootStep(x, compacted, r).Some? && Stands(BootStep(x, compacted, r).value, h + [r])
  {
    hide Inv, Step, Rebuilt;
    RebuiltStep(h, r);
    assert StateAfter(h + [r]) == r.state;
    if r.command.Some? {
      NextDecisions(Rebuilt(h).value, x.k, r.command.value);
    }
  }

  lemma NextDecisions(s: Kernel, k: Kernel, c: Command)
    requires Mirrors(s, k) && k.agreed && Inv(k) && Step(s, c).Accepted?
    ensures Step(k.(replaying := true), c).Accepted?
    ensures var k' := Step(k.(replaying := true), c).k.(replaying := false);
            Mirrors(Step(s, c).k, k') && k'.agreed && Inv(k')
  {
    hide Inv, Step;
    StepFollows(s, k.(replaying := true), c);
    StepFramed(s, c);
    ReplayedKeeps(k, c);
  }

  lemma ReplayingKeeps(k: Kernel)
    requires Inv(k)
    ensures Inv(k.(replaying := true)) && Inv(k.(replaying := false))
  {
    hide Inv;
    SameDecisionsKeep(k, k.(replaying := true));
    SameDecisionsKeep(k, k.(replaying := false));
  }

  lemma ReplayedKeeps(k: Kernel, c: Command)
    requires Inv(k) && k.agreed && Step(k.(replaying := true), c).Accepted?
    ensures Inv(Step(k.(replaying := true), c).k.(replaying := false))
    ensures Step(k.(replaying := true), c).k.agreed && Step(k.(replaying := true), c).k.replaying
  {
    ReplayingKeeps(k);
    StepFramed(k.(replaying := true), c);
    hide Inv, Step;
    StepKeeps(k.(replaying := true), c);
    ReplayingKeeps(Step(k.(replaying := true), c).k);
  }

  /** Commands never touch the clock, the agreement, the epoch or the replay mode. */
  lemma StepFramed(k: Kernel, c: Command)
    requires Step(k, c).Accepted?
    ensures var k' := Step(k, c).k;
            k'.agreed == k.agreed && k'.replaying == k.replaying && k'.now == k.now && k'.epoch == k.epoch
  {
    hide Install, Adopt, Reserve, Promote, Open, ActivateLeaseStep, Fail, ReleaseLeaseStep, Complete, Revoke,
         Expire, Renew;
    hide Bind, ActivateBindingStep, FailBindingStep, PreparedAck, ActiveAck, ClosedAck, FailedAck, AgentSession,
         Observe;
    hide SetNode, Unquarantine, Rebind, AdvanceFence;
  }

  /** Booting from records `from + 1` to `n` of the history. */
  lemma {:induction false} BootReaches(x: Controller, h: seq<Record>, from: nat, n: nat)
    requires Numbered(h) && Rebuilt(h).Some? && from <= x.sequence <= |h| && from <= n <= |h|
             && Stands(x, h[..x.sequence])
    ensures var y := BootAll(x, x.sequence, h[from..n]);
            y.Some? && Stands(y.value, h[..if n < x.sequence then x.sequence else n])
    decreases n
  {
    hide Stands, Rebuilt, BootStep;
    if n == from {
      assert h[from..n] == [];
    } else {
      BootReaches(x, h, from, n - 1);
      var records, r := h[from..n], h[n - 1];
      assert records[..|records| - 1] == h[from..n - 1] && records[|records| - 1] == r;
      var y := BootAll(x, x.sequence, h[from..n - 1]).value;
      if n <= x.sequence {
        BootSkips(y, x.sequence, r);
      } else {
        assert h[..n - 1] + [r] == h[..n];
        RebuiltPrefix(h, n);
        StandsNext(y, h[..n - 1], r, x.sequence);
      }
    }
  }

  lemma BootSkips(x: Controller, compacted: nat, r: Record)
    requires r.sequence <= compacted
    ensures BootStep(x, compacted, r) == Some(x)
  {
  }

  /** Booting what the disk holds always succeeds, applies every record once and ends where
      the history ends. */
  lemma BootSucceeds(c: Codec<Record>, disk: Disk, h: seq<Record>, from: nat, tail: Bytes)
    requires Faithful(c) && DiskHolds(c, disk, h, from, tail)
    ensures Booted(c, disk).Some? && Stands(Booted(c, disk).value, h)
    ensures DiskHolds(c, disk.(log := WholeLines(disk.log)), h, from, [])
  {
    hide Stands, Rebuilt, BootAll;
    ReadsBack(c, h[from..], tail);
    var x := Loaded(disk.snapshot);
    BootReaches(x, h, from, |h|);
    assert h[from..|h|] == h[from..] && h[..|h|] == h;
    assert WholeLines(disk.log) == Written(c, h[from..]) + [];
  }

  /* ---------- every run, cut anywhere ---------- */

  /** The files, and the controller process while one runs. */
  datatype Plant = Plant(disk: Disk, live: Option<Controller>)

  datatype Incident =
    | Persist(command: Option<Command>, state: ServiceState)
    | Tick(now: nat)
    | Compact
    | TornAppend(command: Option<Command>, state: ServiceState, cut: nat)
    | TornCompaction(renamed: bool)
    | PowerLoss
    | Reboot

  ghost predicate Committable(x: Controller, c: Option<Command>) {
    c.None? || Step(x.k, c.value).Accepted?
  }

  ghost predicate Possible(c: Codec<Record>, p: Plant, i: Incident) {
    match i
    case Persist(cmd, _) => p.live.Some? && Committable(p.live.value, cmd)
    case TornAppend(cmd, state, cut) =>
      p.live.Some? && Committable(p.live.value, cmd) && cut <= |Line(c, NextRecord(p.live.value, cmd, state))|
    case Tick(_) => p.live.Some?
    case Compact => p.live.Some?
    case TornCompaction(_) => p.live.Some?
    case PowerLoss => true
    case Reboot => p.live.None?
  }

  function NextRecord(x: Controller, c: Option<Command>, state: ServiceState): Record {
    Record(x.sequence + 1, c, state)
  }

  function SnapshotOf(x: Controller): Option<Snapshot> {
    Some(Snapshot(x.sequence, x.k, x.state))
  }

  ghost function Happens(c: Codec<Record>, p: Plant, i: Incident): Plant
    requires Possible(c, p, i)
  {
    match i
    case Persist(cmd, state) =>
      var x := p.live.value;
      Plant(p.disk.(log := p.disk.log + Line(c, NextRecord(x, cmd, state))),
            Some(Controller(if cmd.Some? then Step(x.k, cmd.value).k else x.k, state, x.sequence + 1)))
    case Tick(now) => p.(live := Some(p.live.value.(k := p.live.value.k.(now := now))))
    case Compact => p.(disk := Disk(SnapshotOf(p.live.value), []))
    case TornAppend(cmd, state, cut) =>
      Plant(p.disk.(log := p.disk.log + Line(c, NextRecord(p.live.value, cmd, state))[..cut]), None)
    case TornCompaction(renamed) =>
      Plant(if renamed then p.disk.(snapshot := SnapshotOf(p.live.value)) else p.disk, None)
    case PowerLoss => p.(live := None)
    case Reboot => Plant(p.disk.(log := WholeLines(p.disk.log)), Booted(c, p.disk))
  }

  /** The durable records after an incident: a torn record counts only if its newline made it. */
  ghost function Recorded(c: Codec<Record>, p: Plant, h: seq<Record>, i: Incident): seq<Record>
    requires Possible(c, p, i)
  {
    match i
    case Persist(cmd, state) => h + [NextRecord(p.live.value, cmd, state)]
    case TornAppend(cmd, state, cut) =>
      if cut == |Line(c, NextRecord(p.live.value, cmd, state))| then h + [NextRecord(p.live.value, cmd, state)] else h
    case _ => h
  }

  /** While a controller runs it stands where the durable history ends and the log ends in
      a whole line. */
  ghost predicate Sound(c: Codec<Record>, p: Plant, h: seq<Record>) {
    exists from, tail :: DiskHolds(c, p.disk, h, from, tail) && (p.live.Some? ==> Stands(p.live.value, h) && tail == [])
  }

  lemma StandsAfterCommit(x: Controller, h: seq<Record>, cmd: Option<Command>, state: ServiceState)
    requires Stands(x, h) && Committable(x, cmd)
    ensures var y := Controller(if cmd.Some? then Step(x.k, cmd.value).k else x.k, state, x.sequence + 1);
            Stands(y, h + [NextRecord(x, cmd, state)])
  {
    hide Inv, Step, Rebuilt;
    RebuiltStep(h, NextRecord(x, cmd, state));
    if cmd.Some? {
      StepFollows(x.k, Rebuilt(h).value, cmd.value);
      StepFramed(x.k, cmd.value);
      StepFramed(Rebuilt(h).value, cmd.value);
      StepKeeps(x.k, cmd.value);
    }
  }

  lemma AppendHolds(c: Codec<Record>, disk: Disk, h: seq<Record>, from: nat, r: Record)
    requires DiskHolds(c, disk, h, from, []) && r.sequence == |h| + 1 && Rebuilt(h + [r]).Some?
    ensures DiskHolds(c, disk.(log := disk.log + Line(c, r)), h + [r], from, [])
  {
    hide Stands, Rebuilt, Line, Written;
    var n := Loaded(disk.snapshot).sequence;
    assert (h + [r])[..n] == h[..n] && (h + [r])[from..] == h[from..] + [r];
    assert Numbered(h + [r]);
    WrittenAppend(c, h[from..], r);
    hide Numbered;
    AppendLog(disk.log, Written(c, h[from..]), Line(c, r), Written(c, (h + [r])[from..]));
  }

  lemma AppendLog(log: Bytes, written: Bytes, line: Bytes, more: Bytes)
    requires log == written + [] && more == written + line
    ensures log + line == more + []
  {
  }

  lemma TornHolds(c: Codec<Record>, disk: Disk, h: seq<Record>, from: nat, torn: Bytes)
    requires DiskHolds(c, disk, h, from, []) && NEWLINE !in torn
    ensures DiskHolds(c, disk.(log := disk.log + torn), h, from, torn)
  {
    hide Stands, Rebuilt;
  }

  lemma SnapshotHolds(c: Codec<Record>, disk: Disk, h: seq<Record>, from: nat, x: Controller)
    requires DiskHolds(c, disk, h, from, []) && Stands(x, h)
    ensures DiskHolds(c, disk.(snapshot := SnapshotOf(x)), h, from, [])
    ensures DiskHolds(c, Disk(SnapshotOf(x), []), h, |h|, [])
  {
    hide Stands, Rebuilt, Numbered, LogHolds;
    EmptyLog(c, h);
    SnapshotAtEnd(c, disk.log, h, from, x);
    SnapshotAtEnd(c, [], h, |h|, x);
  }

  /** A snapshot taken where the history ends suits any log that holds the rest of it. */
  lemma SnapshotAtEnd(c: Codec<Record>, log: Bytes, h: seq<Record>, from: nat, x: Controller)
    requires Numbered(h) && Stands(x, h) && from <= |h| && LogHolds(c, log, h, from, [])
    ensures DiskHolds(c, Disk(SnapshotOf(x), log), h, from, [])
  {
    StandsAt(x, h);
    hide Stands, Rebuilt, Numbered, LogHolds;
    assert h[..|h|] == h;
  }

  lemma StandsAt(x: Controller, h: seq<Record>)
    requires Stands(x, h)
    ensures x.sequence == |h| && Rebuilt(h).Some?
  {
  }

  lemma EmptyLog(c: Codec<Record>, h: seq<Record>)
    ensures LogHolds(c, [], h, |h|, [])
  {
    assert h[|h|..] == [] && Written(c, []) == [];
  }

  lemma TickStands(x: Controller, h: seq<Record>, now: nat)
    requires Stands(x, h)
    ensures Stands(x.(k := x.k.(now := now)), h)
  {
    hide Inv, Rebuilt;
    SameDecisionsKeep(x.k, x.k.(now := now));
  }

  /** Every incident keeps the plant sound, in particular a reboot always comes back. */
  lemma IncidentSound(c: Codec<Record>, p: Plant, h: seq<Record>, i: Incident)
    requires Faithful(c) && Sound(c, p, h) && Possible(c, p, i)
    ensures Sound(c, Happens(c, p, i), Recorded(c, p, h, i))
    ensures i.Reboot? ==> Happens(c, p, i).live.Some?
  {
    hide DiskHolds, Booted, Stands, Step, Line, Faithful;
    var from, tail :| DiskHolds(c, p.disk, h, from, tail)
      && (p.live.Some? ==> Stands(p.live.value, h) && tail == []);
    match i
    case Persist(cmd, state) => PersistSound(c, p, h, from, cmd, state);
    case TornAppend(cmd, state, cut) => TornSound(c, p, h, from, cmd, state, cut);
    case Tick(now) =>
      TickStands(p.live.value, h, now);
      assert DiskHolds(c, Happens(c, p, i).disk, h, from, []);
    case Compact =>
      SnapshotHolds(c, p.disk, h, from, p.live.value);
      assert DiskHolds(c, Happens(c, p, i).disk, h, |h|, []);
    case TornCompaction(renamed) =>
      SnapshotHolds(c, p.disk, h, from, p.live.value);
      assert DiskHolds(c, Happens(c, p, i).disk, h, from, []);
    case PowerLoss =>
      assert DiskHolds(c, Happens(c, p, i).disk, h, from, tail);
    case Reboot =>
      BootSucceeds(c, p.disk, h, from, tail);
      assert DiskHolds(c, Happens(c, p, i).disk, h, from, []);
  }

  lemma PersistSound(c: Codec<Record>, p: Plant, h: seq<Record>, from: nat, cmd: Option<Command>, state: ServiceState)
    requires Faithful(c) && Possible(c, p, Persist(cmd, state))
    requires DiskHolds(c, p.disk, h, from, []) && Stands(p.live.value, h)
    ensures Sound(c, Happens(c, p, Persist(cmd, state)), h + [NextRecord(p.live.value, cmd, state)])
  {
    hide Stands, Rebuilt, Step, DiskHolds, Line, Faithful;
    var x := p.live.value;
    StandsAfterCommit(x, h, cmd, state);
    PersistHolds(c, p, h, from, cmd, state);
    assert DiskHolds(c, Happens(c, p, Persist(cmd, state)).disk, h + [NextRecord(x, cmd, state)], from, []);
  }

  lemma TornSound(c: Codec<Record>, p: Plant, h: seq<Record>, from: nat, cmd: Option<Command>, state: ServiceState,
      cut: nat)
    requires Faithful(c) && Possible(c, p, TornAppend(cmd, state, cut))
    requires DiskHolds(c, p.disk, h, from, []) && Stands(p.live.value, h)
    ensures Sound(c, Happens(c, p, TornAppend(cmd, state, cut)), Recorded(c, p, h, TornAppend(cmd, state, cut)))
  {
    hide Stands, DiskHolds, Rebuilt, Step, Line, Faithful;
    var r := NextRecord(p.live.value, cmd, state);
    TornLine(c, r, cut);
    if cut < |Line(c, r)| {
      TornHolds(c, p.disk, h, from, Line(c, r)[..cut]);
      assert DiskHolds(c, Happens(c, p, TornAppend(cmd, state, cut)).disk, h, from, Line(c, r)[..cut]);
    } else {
      PersistHolds(c, p, h, from, cmd, state);
      assert DiskHolds(c, Happens(c, p, TornAppend(cmd, state, cut)).disk, h + [r], from, []);
    }
  }

  lemma PersistHolds(c: Codec<Record>, p: Plant, h: seq<Record>, from: nat, cmd: Option<Command>, state: ServiceState)
    requires p.live.Some? && Committable(p.live.value, cmd) && DiskHolds(c, p.disk, h, from, [])
             && Stands(p.live.value, h)
    ensures DiskHolds(c, p.disk.(log := p.disk.log + Line(c, NextRecord(p.live.value, cmd, state))),
                      h + [NextRecord(p.live.value, cmd, state)], from, [])
  {
    hide Inv, Rebuilt, Step, DiskHolds, Line, Committable;
    StandsAfterCommit(p.live.value, h, cmd, state);
    AppendHolds(c, p.disk, h, from, NextRecord(p.live.value, cmd, state));
  }

  ghost function After(c: Codec<Record>, p: Plant, incidents: seq<Incident>): Plant
    requires Story(c, p, incidents)
    decreases |incidents|, 1
  {
    if incidents == [] then p else Happens(c, After(c, p, incidents[..|incidents| - 1]), incidents[|incidents| - 1])
  }

  /** Every incident is possible when it happens. */
  ghost predicate Story(c: Codec<Record>, p: Plant, incidents: seq<Incident>)
    decreases |incidents|, 0
  {
    incidents == []
    || (Story(c, p, incidents[..|incidents| - 1])
        && Possible(c, After(c, p, incidents[..|incidents| - 1]), incidents[|incidents| - 1]))
  }

  ghost function Durable(c: Codec<Record>, p: Plant, incidents: seq<Incident>): seq<Record>
    requires Story(c, p, incidents)
  {
    if incidents == [] then []
    else
      var prefix, i := incidents[..|incidents| - 1], incidents[|incidents| - 1];
      Recorded(c, After(c, p, prefix), Durable(c, p, prefix), i)
  }

  /** Over any run of appends, clock ticks and compactions, cut at any point and rebooted any
      number of times, the files hold exactly the durable records. */
  lemma {:induction false} StorySound(c: Codec<Record>, incidents: seq<Incident>)
    requires Faithful(c) && Story(c, Plant(Disk(None, []), None), incidents)
    ensures var start := Plant(Disk(None, []), None);
            Sound(c, After(c, start, incidents), Durable(c, start, incidents))
  {
    var p := Plant(Disk(None, []), None);
    if incidents == [] {
      EmptyDisk(c);
      hide DiskHolds;
      assert DiskHolds(c, p.disk, [], 0, []);
    } else {
      hide Sound, Possible, Happens, Recorded;
      var prefix := incidents[..|incidents| - 1];
      StorySound(c, prefix);
      IncidentSound(c, After(c, p, prefix), Durable(c, p, prefix), incidents[|incidents| - 1]);
    }
  }

  /** So booting the files at any moment succeeds and rebuilds every decision of the last
      durable record, its controller state and its sequence number. */
  lemma RebootRebuilds(c: Codec<Record>, incidents: seq<Incident>)
    requires Faithful(c) && Story(c, Plant(Disk(None, []), None), incidents)
    ensures var p := Plant(Disk(None, []), None);
            var h := Durable(c, p, incidents);
            var x := Booted(c, After(c, p, incidents).disk);
            && x.Some? && Rebuilt(h).Some? && SameDecisions(x.value.k, Rebuilt(h).value)
            && x.value.state == StateAfter(h) && x.value.sequence == |h|
  {
    StorySound(c, incidents);
    var p := Plant(Disk(None, []), None);
    var h, q := Durable(c, p, incidents), After(c, p, incidents);
    hide Story, After, Durable;
    var from, tail :| DiskHolds(c, q.disk, h, from, tail);
    BootSucceeds(c, q.disk, h, from, tail);
    hide Inv, Rebuilt;
  }

  /** The boot loop: restore the snapshot, then replay every later record in order. */
  method Boot(log: CommandLog<Record>, snapshot: Option<Snapshot>)
    returns (cluster: Cluster?, state: ServiceState, sequence: nat)
    requires Inv(Loaded(snapshot).k) && !Loaded(snapshot).k.replaying
    modifies log
    ensures cluster != null <==> old(Booted(log.codec, Disk(snapshot, log.file))).Some?
    ensures cluster != null ==>
              && fresh(cluster) && cluster.Valid() && log.file == old(WholeLines(log.file))
              && Controller(cluster.State(), state, sequence) == old(Booted(log.codec, Disk(snapshot, log.file))).value
  {
    hide Inv, Step, Parsed, WholeLines, BootStep;
    ghost var x := Loaded(snapshot);
    if snapshot.Some? {
      cluster := new Cluster.Restored(snapshot.value.cluster);
      state, sequence := snapshot.value.state, snapshot.value.sequence;
    } else {
      cluster := new Cluster();
      state, sequence := EMPTY_STATE, 0;
    }
    var compacted := sequence;
    var records := log.ReadRecords();
    if records.None? {
      return null, 0, 0;
    }
    var all := records.value;
    for i := 0 to |all|
      invariant cluster != null && fresh(cluster) && cluster.Valid() && !cluster.replaying
      invariant log.file == old(WholeLines(log.file))
      invariant BootAll(x, compacted, all[..i]) == Some(Controller(cluster.State(), state, sequence))
    {
      assert all[..i + 1][..i] == all[..i];
      var ok;
      ok, state, sequence := BootRecord(cluster, state, sequence, compacted, all[i]);
      if !ok {
        BootRefusal(x, compacted, all, i + 1);
        return null, 0, 0;
      }
    }
    assert all[..|all|] == all;
  }

  /** One record of the journal: skipped if the snapshot holds it, refused if it leaves a gap,
      else replayed. */
  method BootRecord(cluster: Cluster, state: ServiceState, sequence: nat, compacted: nat, r: Record)
    returns (ok: bool, state': ServiceState, sequence': nat)
    requires cluster.Valid() && !cluster.replaying
    modifies cluster
    ensures cluster.Valid() && !cluster.replaying
    ensures var next := BootStep(Controller(old(cluster.State()), state, sequence), compacted, r);
            (ok <==> next.Some?) && (ok ==> next.value == Controller(cluster.State(), state', sequence'))
  {
    hide Inv, Step;
    ok, state', sequence' := true, state, sequence;
    if r.sequence <= compacted {
      return;
    }
    if r.sequence != sequence + 1 {
      return false, state, sequence;
    }
    if r.command.Some? {
      ok := ReplayCommand(cluster, r.command.value);
    }
    state', sequence' := r.state, r.sequence;
  }

  /** One replayed command, with the clock checks off. */
  method ReplayCommand(cluster: Cluster, c: Command) returns (ok: bool)
    requires cluster.Valid() && !cluster.replaying
    modifies cluster
    ensures cluster.Valid() && !cluster.replaying
    ensures var o := Step(old(cluster.State()).(replaying := true), c);
            ok == o.Accepted? && (ok ==> cluster.State() == o.k.(replaying := false))
  {
    hide Inv, Step;
    ghost var k := cluster.State();
    ReplayingKeeps(k);
    cluster.SetReplaying(true);
    var reply := cluster.Apply(c);
    ReplayingKeeps(cluster.State());
    cluster.SetReplaying(false);
    return reply.Some?;
  }

  lemma {:induction false} BootRefusal(x: Controller, compacted: nat, records: seq<Record>, n: nat)
    requires n <= |records| && BootAll(x, compacted, records[..n]).None?
    ensures BootAll(x, compacted, records).None?
  {
    hide BootStep;
    if n == |records| {
      assert records[..n] == records;
    } else {
      var prefix := records[..|records| - 1];
      assert prefix[..n] == records[..n];
      BootRefusal(x, compacted, prefix, n);
    }
  }
}

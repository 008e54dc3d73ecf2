/** Process groups as the kernel keeps them, and ending the one a record names: what
    can be told of a recorded group once its id may have gone to other processes. */
module ProcessGroups {

  import opened Common

  // A group of processes: its id, and which group of that id it is.
  datatype Group = Group(id: nat, instance: nat)

  // A process; uid tells it from every other there ever was, which nothing but the
  // proof sees. A zombie has ended and is not reaped yet.
  datatype Proc = Proc(uid: nat, group: Group, second: int, boot: nat, tick: nat, zombie: bool)

  /** The kernel: its processes by process id, and which ids were given out when. */
  datatype Kernel = Kernel(procs: map<nat, Proc>, uids: nat, instances: nat, boot: nat, tick: nat, second: int,
                           used: set<(nat, nat, nat)>)

  // ---------- what can happen ----------

  /** A process is forked, or moves, into a group there is or one of its own; it
      ends, its zombie is reaped; time passes; the machine starts anew. */
  datatype Change =
    | Fork(pid: nat, group: Group)
    | Move(pid: nat, group: Group)
    | End(pid: nat)
    | Reap(pid: nat)
    | Pass(ticks: nat, second: int)
    | Reboot(second: int)

  ghost predicate GroupThere(k: Kernel, group: Group) {
    exists i :: i in k.procs && k.procs[i].group == group
  }

  // A process or a group has this id.
  ghost predicate Had(k: Kernel, pid: nat) {
    pid in k.procs || exists i :: i in k.procs && k.procs[i].group.id == pid
  }

  // No id is handed out that a process or a group has, nor twice in a tick; what
  // leads a group stays in it.
  ghost predicate Can(k: Kernel, c: Change) {
    match c
    case Fork(pid, group) =>
      !Had(k, pid) && (pid, k.boot, k.tick) !in k.used && (group == Group(pid, k.instances) || GroupThere(k, group))
    case Move(pid, group) =>
      && pid in k.procs && k.procs[pid].group.id != pid
      && (GroupThere(k, group) || (group == Group(pid, k.instances) && forall i :: i in k.procs ==> k.procs[i].group.id != pid))
    case End(pid) => pid in k.procs
    case Reap(pid) => pid in k.procs && k.procs[pid].zombie
    case Pass(_, _) => true
    case Reboot(_) => true
  }

  ghost function Next(k: Kernel, c: Change): Kernel
    requires Can(k, c)
  {
    match c
    case Fork(pid, group) =>
      k.(procs := k.procs[pid := Proc(k.uids, group, k.second, k.boot, k.tick, false)],
         uids := k.uids + 1, instances := k.instances + 1, used := k.used + {(pid, k.boot, k.tick)})
    case Move(pid, group) =>
      k.(procs := k.procs[pid := k.procs[pid].(group := group)], instances := k.instances + 1)
    case End(pid) => k.(procs := k.procs[pid := k.procs[pid].(zombie := true)])
    case Reap(pid) => k.(procs := k.procs - {pid})
    case Pass(ticks, second) => k.(tick := k.tick + ticks, second := second)
    case Reboot(second) => k.(procs := map[], boot := k.boot + 1, tick := 0, second := second)
  }

  // ---------- what a record means ----------

  /** A run's record: its group's id, its leader's start time as ps prints it, and
      the leader's identity, the boot and the tick it started in. The uid and the
      instance are the run's own, told by nothing but the proof. */
  datatype Record = Record(pgid: nat, second: int, boot: nat, tick: nat, uid: nat, instance: nat)

  // Processes, groups and what was given out, as every kernel has them.
  ghost predicate Sound(k: Kernel) {
    && (forall i, j :: i in k.procs && j in k.procs && k.procs[i].group.id == k.procs[j].group.id ==> k.procs[i].group == k.procs[j].group)
    && (forall i, j :: i in k.procs && j in k.procs && k.procs[i].group.instance == k.procs[j].group.instance ==>
          k.procs[i].group == k.procs[j].group)
    && (forall i, j :: i in k.procs && j in k.procs && k.procs[i].uid == k.procs[j].uid ==> i == j)
    && (forall i :: i in k.procs ==> k.procs[i].uid < k.uids && k.procs[i].group.instance < k.instances)
    && (forall i :: i in k.procs ==> (i, k.procs[i].boot, k.procs[i].tick) in k.used)
  }

  const Boot := Kernel(map[], 0, 0, 0, 0, 0, {})

  // Made while the leader of the run's group was there.
  ghost predicate Recorded(k: Kernel, r: Record) {
    && r.pgid > 1 && r.pgid in k.procs
    && var p := k.procs[r.pgid];
       p.uid == r.uid && p.group == Group(r.pgid, r.instance) && p.second == r.second && p.boot == r.boot && p.tick == r.tick
  }

  // The process of that id and identity is the run's leader, and no other is.
  ghost predicate LeaderMeant(k: Kernel, r: Record) {
    && r.uid < k.uids && (r.pgid, r.boot, r.tick) in k.used
    && (forall i :: i in k.procs && k.procs[i].uid == r.uid ==>
          && i == r.pgid && k.procs[i].group == Group(r.pgid, r.instance) && k.procs[i].second == r.second
          && k.procs[i].boot == r.boot && k.procs[i].tick == r.tick)
    && (r.pgid in k.procs && k.procs[r.pgid].boot == r.boot && k.procs[r.pgid].tick == r.tick ==> k.procs[r.pgid].uid == r.uid)
  }

  // The run's group has the recorded id, and no other process has that id meanwhile.
  ghost predicate GroupMeant(k: Kernel, r: Record) {
    && r.instance < k.instances
    && forall i :: i in k.procs && k.procs[i].group.instance == r.instance ==>
         k.procs[i].group.id == r.pgid && (r.pgid in k.procs ==> k.procs[r.pgid].uid == r.uid)
  }

  ghost predicate Meant(k: Kernel, r: Record) {
    r.pgid > 1 && Sound(k) && LeaderMeant(k, r) && GroupMeant(k, r)
  }

  lemma SoundForked(k: Kernel, c: Change)
    requires Sound(k) && Can(k, c) && c.Fork?
    ensures Sound(Next(k, c))
  {
  }

  lemma SoundMoved(k: Kernel, c: Change)
    requires Sound(k) && Can(k, c) && c.Move?
    ensures Sound(Next(k, c))
  {
  }

  lemma SoundStep(k: Kernel, c: Change)
    requires Sound(k) && Can(k, c)
    ensures Sound(Next(k, c))
  {
    match c
    case Fork(_, _) => SoundForked(k, c);
    case Move(_, _) => SoundMoved(k, c);
    case _ =>
  }

  lemma LeaderStep(k: Kernel, c: Change, r: Record)
    requires Meant(k, r) && Can(k, c)
    ensures LeaderMeant(Next(k, c), r)
  {
  }

  lemma GroupForked(k: Kernel, c: Change, r: Record)
    requires Meant(k, r) && Can(k, c) && c.Fork?
    ensures GroupMeant(Next(k, c), r)
  {
  }

  lemma GroupMoved(k: Kernel, c: Change, r: Record)
    requires Meant(k, r) && Can(k, c) && c.Move?
    ensures GroupMeant(Next(k, c), r)
  {
  }

  lemma GroupStep(k: Kernel, c: Change, r: Record)
    requires Meant(k, r) && Can(k, c)
    ensures GroupMeant(Next(k, c), r)
  {
    match c
    case Fork(_, _) => GroupForked(k, c, r);
    case Move(_, _) => GroupMoved(k, c, r);
    case _ =>
  }

  // A history of the kernel, from its first boot on.
  ghost predicate History(h: seq<Kernel>, cs: seq<Change>) {
    |h| == |cs| + 1 && h[0] == Boot && forall i :: 0 <= i < |cs| ==> Follows(h, cs, i)
  }

  ghost predicate Follows(h: seq<Kernel>, cs: seq<Change>, i: nat)
    requires i < |cs| < |h|
  {
    Can(h[i], cs[i]) && h[i + 1] == Next(h[i], cs[i])
  }

  lemma {:induction false} HistoryIsSound(h: seq<Kernel>, cs: seq<Change>, i: nat)
    requires History(h, cs) && i < |h|
    ensures Sound(h[i])
  {
    if i > 0 {
      HistoryIsSound(h, cs, i - 1);
      assert Follows(h, cs, i - 1);
      SoundStep(h[i - 1], cs[i - 1]);
    }
  }

  lemma RecordedMeans(k: Kernel, r: Record)
    requires Sound(k) && Recorded(k, r)
    ensures Meant(k, r)
  {
  }

  /** A record made at any point of any history means the run's leader and its group
      ever after, whatever ids went to others since. */
  lemma {:induction false} RecordStaysMeant(h: seq<Kernel>, cs: seq<Change>, i: nat, j: nat, r: Record)
    requires History(h, cs) && i <= j < |h| && Recorded(h[i], r)
    ensures Meant(h[j], r)
    decreases j
  {
    HistoryIsSound(h, cs, j);
    if i == j {
      RecordedMeans(h[j], r);
    } else {
      RecordStaysMeant(h, cs, i, j - 1, r);
      assert Follows(h, cs, j - 1);
      LeaderStep(h[j - 1], cs[j - 1], r);
      GroupStep(h[j - 1], cs[j - 1], r);
    }
  }

  // ---------- what one look shows ----------

  // What signal 0 to the group says: none there, there, or not to be told.
  datatype Probe = NoSuchGroup | There | NotTold

  /** One look at a group and the process of its id: which of them could be read,
      the members listed (None when they cannot be), and the earliest second one of
      these is read to have started in. */
  datatype Seen = Seen(identity: Option<(nat, nat)>, start: Option<int>, members: Option<set<nat>>, oldest: Option<int>, probe: Probe)

  ghost predicate InGroup(k: Kernel, g: nat, pid: nat) {
    pid in k.procs && k.procs[pid].group.id == g
  }

  // What is read is so; a zombie may be listed or not, a running process is.
  ghost predicate Sees(k: Kernel, g: nat, s: Seen) {
    && (s.identity.Some? ==> g in k.procs && s.identity.value == (k.procs[g].boot, k.procs[g].tick))
    && (s.start.Some? ==> g in k.procs && s.start.value == k.procs[g].second)
    && (s.members.Some? ==>
          forall pid :: (pid in s.members.value ==> InGroup(k, g, pid))
                        && (InGroup(k, g, pid) && !k.procs[pid].zombie ==> pid in s.members.value))
    && (s.oldest.Some? ==> exists pid :: InGroup(k, g, pid) && k.procs[pid].second == s.oldest.value)
    && (s.probe == NoSuchGroup <==> forall pid :: !InGroup(k, g, pid))
  }

  // No process of the run still runs.
  ghost predicate NoneRuns(k: Kernel, r: Record) {
    forall pid :: pid in k.procs && k.procs[pid].group.instance == r.instance ==> k.procs[pid].zombie
  }

  // Every process the group's id reaches is of the run.
  ghost predicate OnlyTheRuns(k: Kernel, r: Record) {
    forall pid :: InGroup(k, r.pgid, pid) ==> k.procs[pid].group.instance == r.instance
  }

  predicate Gone(s: Seen) {
    s.probe == NoSuchGroup || s.members == Some({})
  }

  predicate Alive(g: nat, start: int, s: Seen) {
    g > 1 && s.probe == There && s.start == Some(start)
  }

  // ---------- ending a group ----------

  // A member started in a second before the one the leader was seen dead in.
  predicate StartedBefore(s: Seen, died: Option<int>) {
    died.Some? && s.oldest.Some? && s.oldest.value < died.value
  }

  /** When the group g may be signalled, and when it counts as cleared: start is its
      leader's start second, died the one that was seen dead in, if any; polls are the
      looks after the signals. */
  method ClearGroup(g: nat, start: int, died: Option<int>, s: Seen, polls: seq<Seen>)
    returns (state: GroupState, signalled: bool)
    requires |polls| > 0
    ensures signalled <==> g > 1 && s.probe == There && s.members != Some({})
                           && (s.start == Some(start) || (s.members.Some? && StartedBefore(s, died)))
    ensures state == Cleared <==>
            g <= 1 || s.probe == NoSuchGroup || (s.probe == There && s.members == Some({}))
            || (signalled && exists i :: 0 <= i < |polls| && (polls[i].probe == NoSuchGroup || polls[i].members == Some({})))
    ensures state == Remains <==> state != Cleared && signalled && polls[|polls|-1].members.Some?
    ensures state != NotLooked
  {
    signalled := false;
    if g <= 1 || s.probe == NoSuchGroup {
      return Cleared, false;
    }
    if s.probe == NotTold {
      return Unknown, false;
    }
    if s.members == Some({}) {
      return Cleared, false;
    }
    if !Alive(g, start, s) {
      if s.members.None? || !StartedBefore(s, died) {
        return Unknown, false;
      }
    }
    signalled := true;
    for i := 0 to |polls|
      invariant forall j :: 0 <= j < i ==> !Gone(polls[j])
    {
      if Gone(polls[i]) {
        return Cleared, true;
      }
    }
    state := if polls[|polls|-1].members.None? then Unknown else Remains;
  }

  // What a look at the group shows of the run whose group it was.
  lemma GoneMeans(k: Kernel, r: Record, s: Seen)
    requires Meant(k, r) && Sees(k, r.pgid, s) && Gone(s)
    ensures NoneRuns(k, r)
  {
    forall pid | pid in k.procs && k.procs[pid].group.instance == r.instance ensures k.procs[pid].zombie {
      assert InGroup(k, r.pgid, pid);
    }
  }

  lemma LeaderThere(k: Kernel, r: Record)
    requires Meant(k, r) && r.pgid in k.procs
    ensures k.procs[r.pgid].uid == r.uid <==> k.procs[r.pgid].boot == r.boot && k.procs[r.pgid].tick == r.tick
    ensures k.procs[r.pgid].uid == r.uid ==> OnlyTheRuns(k, r)
    ensures k.procs[r.pgid].uid != r.uid ==> NoneRuns(k, r)
  {
  }

  // The kernel at each of some looks.
  ghost predicate Looks(ks: seq<Kernel>, polls: seq<Seen>, r: Record) {
    |ks| == |polls| && forall i :: 0 <= i < |ks| ==> Meant(ks[i], r) && Sees(ks[i], r.pgid, polls[i])
  }

  /** Ends the group a record names: with an identity in the record it signals the
      run's own group alone, and it says cleared only of a run none of whose
      processes still runs. */
  method EndRecordedGroup(r: Record, known: bool, s: Seen, polls: seq<Seen>, ghost k: Kernel, ghost ks: seq<Kernel>)
    returns (state: GroupState, signalled: bool)
    requires Meant(k, r) && Sees(k, r.pgid, s) && Looks(ks, polls, r) && |polls| > 0
    ensures signalled ==> known && OnlyTheRuns(k, r) && r.pgid in k.procs && k.procs[r.pgid].uid == r.uid
    ensures state == Cleared ==> NoneRuns(k, r) || (signalled && exists i :: 0 <= i < |ks| && NoneRuns(ks[i], r))
    ensures known && s.identity.Some? && s.identity != Some((r.boot, r.tick)) ==> state == Cleared && !signalled
    ensures known && s.identity == Some((r.boot, r.tick)) && s.probe == There && s.members != Some({}) && s.start == Some(r.second) ==>
              signalled && (state == Cleared <==>
                            exists i :: 0 <= i < |polls| && (polls[i].probe == NoSuchGroup || polls[i].members == Some({})))
    ensures s.probe == NoSuchGroup || (s.probe == There && s.members == Some({})) ==> state == Cleared && !signalled
    ensures !known && s.probe != NoSuchGroup && s.members != Some({}) ==> state == Unknown && !signalled
    ensures state != NotLooked
  {
    if Gone(s) {
      GoneMeans(k, r, s);
    }
    if r.pgid in k.procs {
      LeaderThere(k, r);
    }
    forall i | 0 <= i < |polls| && Gone(polls[i]) ensures NoneRuns(ks[i], r) {
      GoneMeans(ks[i], r, polls[i]);
    }
    if known && s.identity == Some((r.boot, r.tick)) {
      state, signalled := ClearGroup(r.pgid, r.second, None, s, polls);
    } else if known && s.identity.Some? {
      return Cleared, false;
    } else if known && s.start.None? {
      state, signalled := ClearGroup(r.pgid, r.second, None, s, polls);
    } else {
      return if Gone(s) then Cleared else Unknown, false;
    }
  }

  /** A group told by its leader's start second alone, as the registry's entries
      are: it is signalled though it is another's exactly when the process that has
      the id now has not the leader's identity, which nobody compares there. */
  lemma StartSecondTells(k: Kernel, r: Record, s: Seen)
    requires Meant(k, r) && Sees(k, r.pgid, s) && Alive(r.pgid, r.second, s)
    ensures OnlyTheRuns(k, r) <==> k.procs[r.pgid].boot == r.boot && k.procs[r.pgid].tick == r.tick
    ensures s.identity.Some? ==> (OnlyTheRuns(k, r) <==> s.identity == Some((r.boot, r.tick)))
    ensures !OnlyTheRuns(k, r) ==> k.procs[r.pgid].second == r.second && NoneRuns(k, r)
  {
    LeaderThere(k, r);
  }

  // The changes of a process that leads group 5, and of one that has its id within
  // the same second.
  const Reused := [Fork(5, Group(5, 0)), End(5), Reap(5), Pass(1, 0), Fork(5, Group(5, 1))]

  /** It can be another's: a history in which one comes by the id in the second the
      leader started. */
  lemma SecondsCollide() returns (h: seq<Kernel>, r: Record, s: Seen)
    ensures History(h, Reused) && Recorded(h[1], r) && Sees(h[5], r.pgid, s)
    ensures Alive(r.pgid, r.second, s) && s.members != Some({}) && !OnlyTheRuns(h[5], r)
  {
    var first, second := Proc(0, Group(5, 0), 0, 0, 0, false), Proc(1, Group(5, 1), 0, 0, 1, false);
    var k1 := Next(Boot, Reused[0]);
    assert k1 == Kernel(map[5 := first], 1, 1, 0, 0, 0, {(5, 0, 0)});
    var k2 := Next(k1, Reused[1]);
    var k3 := Next(k2, Reused[2]);
    assert k3 == Kernel(map[], 1, 1, 0, 0, 0, {(5, 0, 0)});
    var k4 := Next(k3, Reused[3]);
    var k5 := Next(k4, Reused[4]);
    assert k5 == Kernel(map[5 := second], 2, 2, 0, 1, 0, {(5, 0, 0), (5, 0, 1)});
    h := [Boot, k1, k2, k3, k4, k5];
    assert History(h, Reused);
    r := Record(5, 0, 0, 0, 0, 0);
    s := Seen(Some((0, 1)), Some(0), Some({5}), Some(0), There);
    assert InGroup(k5, 5, 5);
  }

  // ---------- a group whose leader was seen dead ----------

  // The clock is not set back.
  ghost predicate Forward(h: seq<Kernel>) {
    forall i, j :: 0 <= i < j < |h| ==> h[i].second <= h[j].second
  }

  // From m to j nothing moves into a group of the run's id but into the run's own.
  ghost predicate NoneMovesIn(cs: seq<Change>, m: nat, j: nat, r: Record) {
    forall x :: m <= x < j && x < |cs| && cs[x].Move? && cs[x].group.id == r.pgid ==> cs[x].group.instance == r.instance
  }

  // A process of k there before the change was made.
  lemma WasThereStep(k: Kernel, c: Change, pid: nat)
    requires Can(k, c) && pid in Next(k, c).procs && Next(k, c).procs[pid].uid != k.uids
    ensures pid in k.procs && k.procs[pid].uid == Next(k, c).procs[pid].uid
    ensures Next(k, c).procs[pid].group == k.procs[pid].group || c == Move(pid, Next(k, c).procs[pid].group)
  {
  }

  // One of the group's id at j that was there at m was in the run's group then, or is now.
  lemma {:induction false} WasThere(h: seq<Kernel>, cs: seq<Change>, m: nat, j: nat, pid: nat, r: Record)
    requires History(h, cs) && m <= j < |h| && NoneMovesIn(cs, m, j, r)
    requires pid in h[j].procs && h[j].procs[pid].uid < h[m].uids && h[j].procs[pid].group.id == r.pgid
    ensures pid in h[m].procs
    ensures h[j].procs[pid].group.instance == r.instance || h[m].procs[pid].group == h[j].procs[pid].group
    decreases j
  {
    if m < j {
      assert Follows(h, cs, j - 1);
      UidsGrow(h, cs, m, j - 1);
      WasThereStep(h[j - 1], cs[j - 1], pid);
      if h[j].procs[pid].group == h[j - 1].procs[pid].group {
        WasThere(h, cs, m, j - 1, pid, r);
      } else {
        StayedThere(h, cs, m, j - 1, pid);
      }
    }
  }

  lemma {:induction false} StayedThere(h: seq<Kernel>, cs: seq<Change>, m: nat, j: nat, pid: nat)
    requires History(h, cs) && m <= j < |h| && pid in h[j].procs && h[j].procs[pid].uid < h[m].uids
    ensures pid in h[m].procs
    decreases j
  {
    if m < j {
      assert Follows(h, cs, j - 1);
      UidsGrow(h, cs, m, j - 1);
      WasThereStep(h[j - 1], cs[j - 1], pid);
      StayedThere(h, cs, m, j - 1, pid);
    }
  }

  lemma {:induction false} UidsGrow(h: seq<Kernel>, cs: seq<Change>, m: nat, j: nat)
    requires History(h, cs) && m <= j < |h|
    ensures h[m].uids <= h[j].uids
    decreases j
  {
    if m < j {
      assert Follows(h, cs, j - 1);
      UidsGrow(h, cs, m, j - 1);
    }
  }

  // One that started in an earlier second than m's was there at m.
  lemma {:induction false} EarlierWasThere(h: seq<Kernel>, cs: seq<Change>, m: nat, j: nat, pid: nat)
    requires History(h, cs) && m <= j < |h| && Forward(h)
    requires pid in h[j].procs && h[j].procs[pid].second < h[m].second
    ensures h[j].procs[pid].uid < h[m].uids
    decreases j
  {
    HistoryIsSound(h, cs, j);
    if m < j {
      assert Follows(h, cs, j - 1);
      if h[j].procs[pid].uid != h[j - 1].uids {
        SecondStays(h[j - 1], cs[j - 1], pid);
        EarlierWasThere(h, cs, m, j - 1, pid);
      } else {
        HistoryIsSound(h, cs, j - 1);
        NewSecond(h[j - 1], cs[j - 1], pid);
      }
    }
  }

  lemma SecondStays(k: Kernel, c: Change, pid: nat)
    requires Can(k, c) && pid in Next(k, c).procs && Next(k, c).procs[pid].uid != k.uids
    ensures pid in k.procs && k.procs[pid].second == Next(k, c).procs[pid].second && k.procs[pid].uid == Next(k, c).procs[pid].uid
  {
  }

  lemma NewSecond(k: Kernel, c: Change, pid: nat)
    requires Sound(k) && Can(k, c) && pid in Next(k, c).procs && Next(k, c).procs[pid].uid == k.uids
    ensures Next(k, c).procs[pid].second == k.second
  {
  }

  /** A group told by one of its processes having started in a second before the one
      its leader was still there in: it is the run's, if the clock was not set back
      and no process moved into another group of the id. */
  lemma DiedTells(h: seq<Kernel>, cs: seq<Change>, i: nat, m: nat, j: nat, r: Record, s: Seen, died: int)
    requires History(h, cs) && i <= m <= j < |h| && Recorded(h[i], r) && Forward(h) && NoneMovesIn(cs, m, j, r)
    requires r.pgid in h[m].procs && h[m].procs[r.pgid].uid == r.uid && died <= h[m].second
    requires Sees(h[j], r.pgid, s) && StartedBefore(s, Some(died))
    ensures OnlyTheRuns(h[j], r)
  {
    var pid :| InGroup(h[j], r.pgid, pid) && h[j].procs[pid].second == s.oldest.value;
    EarlierWasThere(h, cs, m, j, pid);
    WasThere(h, cs, m, j, pid, r);
    RecordStaysMeant(h, cs, i, m, r);
    RecordStaysMeant(h, cs, i, j, r);
  }

  // A leader that dies, and an older process that moves into the next group of its id.
  const MovedIn := [Fork(3, Group(3, 0)), Fork(4, Group(3, 0)), Pass(1, 1), Fork(5, Group(5, 2)), End(5), Reap(5), Pass(1, 1),
                    Fork(5, Group(5, 3)), Move(4, Group(5, 3))]

  /** Where one did, the group can be another's. */
  lemma OlderMovesIn() returns (h: seq<Kernel>, r: Record, s: Seen)
    ensures History(h, MovedIn) && Forward(h) && Recorded(h[4], r) && r.pgid in h[5].procs && h[5].procs[r.pgid].uid == r.uid
    ensures Sees(h[9], r.pgid, s) && StartedBefore(s, Some(h[5].second)) && !OnlyTheRuns(h[9], r)
  {
    var k1 := Next(Boot, MovedIn[0]);
    assert k1.procs == map[3 := Proc(0, Group(3, 0), 0, 0, 0, false)];
    var k2 := Next(k1, MovedIn[1]);
    var k3 := Next(k2, MovedIn[2]);
    var k4 := Next(k3, MovedIn[3]);
    var k5 := Next(k4, MovedIn[4]);
    var k6 := Next(k5, MovedIn[5]);
    assert k6.procs == k2.procs;
    var k7 := Next(k6, MovedIn[6]);
    var k8 := Next(k7, MovedIn[7]);
    assert k8.procs[5].group == Group(5, 3) && k8.procs[4] == Proc(1, Group(3, 0), 0, 0, 0, false);
    var k9 := Next(k8, MovedIn[8]);
    h := [Boot, k1, k2, k3, k4, k5, k6, k7, k8, k9];
    r := Record(5, 1, 0, 1, 2, 2);
    s := Seen(None, None, None, Some(0), There);
    assert InGroup(k9, 5, 4);
  }
}

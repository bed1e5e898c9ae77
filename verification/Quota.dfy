/** `store` called concurrently on clones of one `DiskStore`: reading the old size, checking the
    quota, writing the file and adding to the shared counter are four separate steps. */
module Quota {
  import opened DiskStore
  import opened Counting

  type Tid = nat

  datatype StorePc =
    | Looking                 // read the old size
    | Checking(was: nat)      // load the counter, compare with the quota
    | Writing(was: nat)       // write the file
    | Adding(was: nat)        // fetch_add
    | Finished(ok: bool)

  datatype Store = Store(name: Name, data: Data, at: StorePc)

  /** `peak` is a history variable: the largest size each file ever had. */
  datatype Disk = Disk(files: map<Name, Data>, usage: nat, stores: map<Tid, Store>, peak: map<Name, nat>)

  datatype Label = Start(t: Tid, name: Name, data: Data) | Step(t: Tid, ok: bool)

  predicate Active(s: Store) {
    !s.at.Finished?
  }

  ghost predicate Enabled(d: Disk, l: Label) {
    match l
    case Start(t, _, _) => t !in d.stores
    case Step(t, _) => t in d.stores && Active(d.stores[t])
  }

  function Min(a: nat, b: nat): nat {
    if a < b then a else b
  }

  function Max(a: nat, b: nat): nat {
    if a < b then b else a
  }

  function PeakOf(peak: map<Name, nat>, f: Name): nat {
    if f in peak then peak[f] else 0
  }

  /** The quota test of a store that found `oldSize` bytes under its name. */
  predicate Admits(usage: nat, quota: nat, oldSize: nat, len: nat) {
    Minus(usage, oldSize) + len <= quota
  }

  function Advance(d: Disk, quota: nat, t: Tid, s: Store, ok: bool): Disk {
    match s.at
    case Looking => d.(stores := d.stores[t := s.(at := Checking(SizeOf(d.files, s.name)))])
    case Checking(was) =>
      d.(stores := d.stores[t := s.(at := if Admits(d.usage, quota, was, |s.data|) then Writing(was) else Finished(false))])
    case Writing(was) =>
      if ok then
        d.(files := d.files[s.name := s.data],
           stores := d.stores[t := s.(at := Adding(was))],
           peak := d.peak[s.name := Max(PeakOf(d.peak, s.name), |s.data|)])
      else d.(stores := d.stores[t := s.(at := Finished(false))])
    case Adding(was) =>
      d.(usage := d.usage + Minus(|s.data|, was), stores := d.stores[t := s.(at := Finished(true))])
    case Finished(_) => d
  }

  function Apply(d: Disk, quota: nat, l: Label): Disk {
    match l
    case Start(t, name, data) => d.(stores := d.stores[t := Store(name, data, Looking)])
    case Step(t, ok) => if t in d.stores then Advance(d, quota, t, d.stores[t], ok) else d
  }

  datatype Run = Run(states: seq<Disk>, labels: seq<Label>)

  ghost predicate StepAt(r: Run, quota: nat, i: nat)
    requires i < |r.labels| && |r.states| == |r.labels| + 1
  {
    Enabled(r.states[i], r.labels[i]) && r.states[i + 1] == Apply(r.states[i], quota, r.labels[i])
  }

  /** A run of a store the constructor has just made, whatever its scan of the directory gave. */
  ghost predicate IsRun(r: Run, quota: nat) {
    && |r.states| == |r.labels| + 1
    && r.states[0].stores == map[]
    && r.states[0].peak == Sizes(r.states[0].files)
    && forall i: nat :: i < |r.labels| ==> StepAt(r, quota, i)
  }

  function Increment(s: Store): nat {
    match s.at
    case Writing(was) => Minus(|s.data|, was)
    case Adding(was) => Minus(|s.data|, was)
    case _ => 0
  }

  /** Increments of finished writes not added yet. */
  function Owed(s: Store): nat {
    if s.at.Adding? then Increment(s) else 0
  }

  function OwedBy(stores: map<Tid, Store>): map<Tid, nat> {
    map t | t in stores :: Owed(stores[t])
  }

  function AdmittedFor(stores: map<Tid, Store>): map<Tid, nat> {
    map t | t in stores :: Increment(stores[t])
  }

  ghost function AllOwed(stores: map<Tid, Store>): nat {
    Sum(OwedBy(stores))
  }

  /** Increments of all stores past the quota check. */
  ghost function AllAdmitted(stores: map<Tid, Store>): nat {
    Sum(AdmittedFor(stores))
  }

  lemma OwedWith(stores: map<Tid, Store>, t: Tid, s: Store)
    ensures AllOwed(stores[t := s]) + (if t in stores then Owed(stores[t]) else 0) == AllOwed(stores) + Owed(s)
  {
    assert OwedBy(stores[t := s]) == OwedBy(stores)[t := Owed(s)];
    SumWith(OwedBy(stores), t, Owed(s));
  }

  lemma AdmittedWith(stores: map<Tid, Store>, t: Tid, s: Store)
    ensures AllAdmitted(stores[t := s]) + (if t in stores then Increment(stores[t]) else 0)
         == AllAdmitted(stores) + Increment(s)
  {
    assert AdmittedFor(stores[t := s]) == AdmittedFor(stores)[t := Increment(s)];
    SumWith(AdmittedFor(stores), t, Increment(s));
  }

  // ---------- the counter covers every size a file ever had ----------

  /** The size a store in progress remembers is one the file has had. */
  predicate RemembersPast(s: Store, peak: map<Name, nat>) {
    match s.at
    case Checking(was) => was <= PeakOf(peak, s.name)
    case Writing(was) => was <= PeakOf(peak, s.name)
    case _ => true
  }

  ghost predicate PeaksHold(d: Disk) {
    && (forall f :: f in d.files ==> f in d.peak && |d.files[f]| <= d.peak[f])
    && (forall t :: t in d.stores ==> RemembersPast(d.stores[t], d.peak))
  }

  ghost predicate Sound(d: Disk, gap: nat) {
    PeaksHold(d) && Sum(d.peak) <= d.usage + AllOwed(d.stores) + gap
  }

  lemma StepKeepsPeaks(d: Disk, quota: nat, l: Label)
    requires Enabled(d, l) && PeaksHold(d)
    ensures PeaksHold(Apply(d, quota, l))
  {
    var d' := Apply(d, quota, l);
    forall t | t in d'.stores ensures RemembersPast(d'.stores[t], d'.peak) {
      if t in d.stores {
        assert RemembersPast(d.stores[t], d.peak);
      }
    }
  }

  lemma StepIsSound(d: Disk, quota: nat, l: Label, gap: nat)
    requires Enabled(d, l) && Sound(d, gap)
    ensures Sound(Apply(d, quota, l), gap)
  {
    StepKeepsPeaks(d, quota, l);
    var d' := Apply(d, quota, l);
    OwedWith(d.stores, l.t, d'.stores[l.t]);
    hide AllOwed, Sum;
    if l.Step? {
      var s := d.stores[l.t];
      assert RemembersPast(s, d.peak);
      SumWith(d.peak, s.name, Max(PeakOf(d.peak, s.name), |s.data|));
    }
  }

  /** What the counter misses from the start: nothing, unless the scan of the directory failed. */
  ghost function Shortfall(d: Disk): nat {
    Minus(Total(d.files), d.usage)
  }

  lemma {:induction false} RunIsSound(r: Run, quota: nat, n: nat)
    requires IsRun(r, quota) && n <= |r.labels|
    ensures Sound(r.states[n], Shortfall(r.states[0]))
  {
    if n == 0 {
      assert OwedBy(map[]) == map[];
    } else {
      RunIsSound(r, quota, n - 1);
      assert StepAt(r, quota, n - 1);
      StepIsSound(r.states[n - 1], quota, r.labels[n - 1], Shortfall(r.states[0]));
    }
  }

  /** At every point of every interleaving the counter, plus what finished writes still owe it and
      what it missed from the start, covers the largest size every file ever had - so never less
      than what is stored. */
  lemma UsageCoversDisk(r: Run, quota: nat, n: nat)
    requires IsRun(r, quota) && n <= |r.labels|
    ensures var d := r.states[n];
            Total(d.files) <= Sum(d.peak) <= d.usage + AllOwed(d.stores) + Shortfall(r.states[0])
  {
    RunIsSound(r, quota, n);
    var d := r.states[n];
    SumMonotone(Sizes(d.files), d.peak);
  }

  // ---------- a store by itself ----------

  /** Four steps of one store with nobody else at work: admitted if and only if the counter, less what
      it holds for the file that is replaced, and the new length stay within the quota; then the file
      is the data given and the counter grows by what the file grows. */
  lemma StoreAlone(d: Disk, quota: nat, t: Tid, name: Name, data: Data, written: bool) returns (d': Disk)
    requires t !in d.stores
    ensures d' == Apply(Apply(Apply(Apply(Apply(d, quota, Start(t, name, data)), quota, Step(t, true)),
                                    quota, Step(t, true)), quota, Step(t, written)), quota, Step(t, true))
    ensures t in d'.stores && d'.stores[t].at.Finished?
    ensures var was := if name in d.files then |d.files[name]| else 0;
            var ok := written && (if was <= d.usage then d.usage - was + |data| else |data|) <= quota;
            && d'.stores[t].at == Finished(ok)
            && d'.files == (if ok then d.files[name := data] else d.files)
            && d'.usage == (if ok && was < |data| then d.usage + (|data| - was) else d.usage)
  {
    var looking := Apply(d, quota, Start(t, name, data));
    var checking := Apply(looking, quota, Step(t, true));
    assert checking.stores[t] == Store(name, data, Checking(SizeOf(d.files, name)));
    var decided := Apply(checking, quota, Step(t, true));
    d' := Apply(Apply(decided, quota, Step(t, written)), quota, Step(t, true));
  }

  // ---------- replacing a file ----------

  /** No file was ever larger than the quota, and nothing larger has been admitted. */
  ghost predicate SmallPeaks(d: Disk, quota: nat) {
    && (forall f :: f in d.peak ==> d.peak[f] <= quota)
    && (forall t :: t in d.stores && d.stores[t].at.Writing? ==> |d.stores[t].data| <= quota)
  }

  lemma StepKeepsPeaksSmall(d: Disk, quota: nat, l: Label)
    requires Enabled(d, l) && SmallPeaks(d, quota)
    ensures SmallPeaks(Apply(d, quota, l), quota)
  {
  }

  lemma {:induction false} PeaksStaySmall(r: Run, quota: nat, n: nat)
    requires IsRun(r, quota) && n <= |r.labels| && Total(r.states[0].files) <= quota
    ensures SmallPeaks(r.states[n], quota)
  {
    if n == 0 {
      var d := r.states[0];
      forall f | f in d.peak ensures d.peak[f] <= quota {
        SizeWithinTotal(d.files, f);
      }
    } else {
      PeaksStaySmall(r, quota, n - 1);
      assert StepAt(r, quota, n - 1);
      StepKeepsPeaksSmall(r.states[n - 1], quota, r.labels[n - 1]);
    }
  }

  /** While the counter is within the quota, a store is never refused for replacing a file that was at
      least as long when the store looked at it, whatever other stores did in between. */
  lemma ReplacementIsAdmitted(r: Run, quota: nat, n: nat)
    requires IsRun(r, quota) && n < |r.labels| && Total(r.states[0].files) <= quota
    requires r.labels[n].Step? && r.labels[n].t in r.states[n].stores && r.states[n].stores[r.labels[n].t].at.Checking?
    requires |r.states[n].stores[r.labels[n].t].data| <= r.states[n].stores[r.labels[n].t].at.was
    requires r.states[n].usage <= quota
    ensures r.labels[n].t in r.states[n + 1].stores && r.states[n + 1].stores[r.labels[n].t].at.Writing?
  {
    var d, t := r.states[n], r.labels[n].t;
    assert StepAt(r, quota, n);
    RunIsSound(r, quota, n);
    assert RemembersPast(d.stores[t], d.peak);
    PeaksStaySmall(r, quota, n);
  }

  // ---------- the quota ----------

  ghost function InProgress(d: Disk): set<Tid> {
    set t | t in d.stores && Active(d.stores[t])
  }

  /** At most `k` stores at a time, none of more than `most` bytes. */
  ghost predicate Limited(r: Run, k: nat, most: nat) {
    forall i :: 0 <= i < |r.states| ==>
      && |InProgress(r.states[i])| <= k
      && (forall t :: t in r.states[i].stores ==> |r.states[i].stores[t].data| <= most)
  }

  /** Everything the counter has been or will be charged. */
  ghost function Charged(d: Disk): nat {
    d.usage + AllAdmitted(d.stores)
  }

  /** No increment is larger than `most`. */
  ghost predicate Fits(d: Disk, most: nat) {
    forall t :: t in d.stores ==> Increment(d.stores[t]) <= most
  }

  lemma OthersAreFew(d: Disk, t: Tid, k: nat, most: nat)
    requires t in d.stores && d.stores[t].at.Checking?
    requires |InProgress(d)| <= k && Fits(d, most)
    ensures k > 0 && AllAdmitted(d.stores) <= (k - 1) * most
  {
    hide Sum;
    var all := AdmittedFor(d.stores);
    var some := map u | u in d.stores && Active(d.stores[u]) && u != t :: Increment(d.stores[u]);
    assert some.Keys == InProgress(d) - {t};
    SumAtMost(some, most);
    SumIgnoresZeros(all, some);
    FewerTimes(|some|, k - 1, most);
  }

  lemma FewerTimes(a: nat, b: nat, c: nat)
    requires a <= b
    ensures a * c <= b * c
  {
  }

  lemma {:induction false} SumIgnoresZeros<K>(m: map<K, nat>, n: map<K, nat>)
    requires forall k :: k in m && k !in n ==> m[k] == 0
    requires forall k :: k in n ==> k in m && n[k] == m[k]
    ensures Sum(m) == Sum(n)
  {
    if m != map[] {
      var k :| k in m;
      SumWithout(m, k);
      if k in n {
        SumWithout(n, k);
        SumIgnoresZeros(m - {k}, n - {k});
      } else {
        SumIgnoresZeros(m - {k}, n);
      }
    } else {
      assert n == map[];
    }
  }

  /** An admitted store fits the quota by itself. */
  lemma StepFits(d: Disk, quota: nat, l: Label, most: nat)
    requires Enabled(d, l) && Fits(d, Min(most, quota))
    requires forall u :: u in d.stores ==> |d.stores[u].data| <= most
    ensures Fits(Apply(d, quota, l), Min(most, quota))
  {
  }

  function IncrementOf(stores: map<Tid, Store>, t: Tid): nat {
    if t in stores then Increment(stores[t]) else 0
  }

  /** A step charges nothing new, or it is a quota check that passed: the counter is compared with
      the quota as if the other admitted stores did not exist. */
  lemma StepCharges(d: Disk, quota: nat, l: Label)
    requires Enabled(d, l)
    ensures var d' := Apply(d, quota, l);
            && l.t in d'.stores && d'.stores == d.stores[l.t := d'.stores[l.t]]
            && (|| d'.usage + IncrementOf(d'.stores, l.t) <= d.usage + IncrementOf(d.stores, l.t)
                || (l.Step? && d.stores[l.t].at.Checking? && d'.usage + IncrementOf(d'.stores, l.t) <= quota))
  {
  }

  lemma StepWithinBound(d: Disk, quota: nat, l: Label, extra: nat)
    requires Enabled(d, l) && Charged(d) <= quota + extra
    requires l.Step? && d.stores[l.t].at.Checking? ==> AllAdmitted(d.stores) <= extra
    ensures Charged(Apply(d, quota, l)) <= quota + extra
  {
    StepCharges(d, quota, l);
    AdmittedWith(d.stores, l.t, Apply(d, quota, l).stores[l.t]);
    hide AllAdmitted, Apply, Increment, Enabled;
  }

  lemma StepKeepsQuota(d: Disk, quota: nat, l: Label, k: nat, most: nat)
    requires Enabled(d, l) && |InProgress(d)| <= k && k > 0
    requires forall t :: t in d.stores ==> |d.stores[t].data| <= most
    requires Fits(d, Min(most, quota)) && Charged(d) <= quota + (k - 1) * Min(most, quota)
    ensures Fits(Apply(d, quota, l), Min(most, quota))
    ensures Charged(Apply(d, quota, l)) <= quota + (k - 1) * Min(most, quota)
  {
    StepFits(d, quota, l, most);
    hide Charged, AllAdmitted, Apply, Fits;
    if l.Step? && d.stores[l.t].at.Checking? {
      OthersAreFew(d, l.t, k, Min(most, quota));
    }
    StepWithinBound(d, quota, l, (k - 1) * Min(most, quota));
  }

  /** With at most `k` stores in progress, each of at most `most` bytes, the counter and all
      admitted increments together exceed the quota by at most `k - 1` stores - and no store
      larger than the quota is ever admitted. */
  lemma {:induction false} ConcurrentQuota(r: Run, quota: nat, n: nat, k: nat, most: nat)
    requires IsRun(r, quota) && n <= |r.labels| && k > 0 && Limited(r, k, most)
    requires r.states[0].usage <= quota
    ensures Charged(r.states[n]) <= quota + (k - 1) * Min(most, quota)
    ensures Fits(r.states[n], Min(most, quota))
  {
    if n == 0 {
      assert AdmittedFor(map[]) == map[];
    } else {
      hide Charged, Fits, Apply, Enabled;
      ConcurrentQuota(r, quota, n - 1, k, most);
      assert StepAt(r, quota, n - 1);
      StepKeepsQuota(r.states[n - 1], quota, r.labels[n - 1], k, most);
    }
  }

  lemma OwedIsAdmitted(stores: map<Tid, Store>)
    ensures AllOwed(stores) <= AllAdmitted(stores)
  {
    SumMonotone(OwedBy(stores), AdmittedFor(stores));
  }

  /** So the bytes really on disk obey the same bound, up to what the counter missed from the
      start. */
  lemma DiskWithinBound(r: Run, quota: nat, n: nat, k: nat, most: nat)
    requires IsRun(r, quota) && n <= |r.labels| && k > 0 && Limited(r, k, most)
    requires r.states[0].usage <= quota
    ensures Total(r.states[n].files) <= quota + (k - 1) * Min(most, quota) + Shortfall(r.states[0])
  {
    UsageCoversDisk(r, quota, n);
    ConcurrentQuota(r, quota, n, k, most);
    OwedIsAdmitted(r.states[n].stores);
  }

  // ---------- the bound is reached ----------

  ghost function Last(r: Run): Disk
    requires |r.states| == |r.labels| + 1
  {
    r.states[|r.labels|]
  }

  /** Any number of different file names, none of them "old". */
  function NameOf(t: Tid): Name {
    seq(t + 1, _ => 'x')
  }

  lemma NamesDiffer(t: Tid, u: Tid)
    ensures NameOf(t) != "old"
    ensures NameOf(t) == NameOf(u) ==> t == u
  {
    assert NameOf(t)[0] == 'x' && |NameOf(t)| == t + 1 && |NameOf(u)| == u + 1;
  }

  /** `n` stores of the same data under different names; the first `done` of them are over, the
      others have passed the quota check and not written yet. */
  function Stores(n: nat, done: nat, data: Data): map<Tid, Store> {
    map t: Tid | 0 <= t < n :: Store(NameOf(t), data, if t < done then Finished(true) else Writing(0))
  }

  lemma {:induction false} StoresCount(n: nat, done: nat, data: Data)
    ensures |Stores(n, done, data)| == n
  {
    if n > 0 {
      StoresCount(n - 1, done, data);
      assert Stores(n, done, data).Keys == Stores(n - 1, done, data).Keys + {n - 1};
    }
  }

  ghost predicate Wave(d: Disk, n: nat, done: nat, data: Data) {
    && d.stores == Stores(n, done, data)
    && forall t: Tid :: done <= t ==> NameOf(t) !in d.files
  }

  ghost predicate Small(d: Disk, k: nat, most: nat) {
    |d.stores| <= k && forall t :: t in d.stores ==> |d.stores[t].data| <= most
  }

  /** The run `r` with one more step, still within the limits. */
  lemma Grow(r: Run, quota: nat, l: Label, k: nat, most: nat) returns (e: Run)
    requires IsRun(r, quota) && Limited(r, k, most) && Enabled(Last(r), l)
    requires Small(Apply(Last(r), quota, l), k, most)
    ensures IsRun(e, quota) && Limited(e, k, most) && |e.states| == |e.labels| + 1
    ensures e.states[0] == r.states[0] && Last(e) == Apply(Last(r), quota, l)
  {
    var d := Apply(Last(r), quota, l);
    e := Run(r.states + [d], r.labels + [l]);
    hide Apply, Enabled;
    assert forall i: nat :: i < |r.labels| ==> StepAt(r, quota, i) ==> StepAt(e, quota, i);
    assert StepAt(e, quota, |r.labels|);
    assert InProgress(d) <= d.stores.Keys;
    SubsetSize(InProgress(d), d.stores.Keys);
  }

  function At(d: Disk, t: Tid, data: Data, at: StorePc): Disk {
    d.(stores := d.stores[t := Store(NameOf(t), data, at)])
  }

  lemma AdmitOne(r: Run, quota: nat, n: nat, k: nat, data: Data) returns (e: Run)
    requires IsRun(r, quota) && Limited(r, k, |data|) && n < k
    requires Wave(Last(r), n, 0, data) && Last(r).usage + |data| <= quota
    ensures IsRun(e, quota) && Limited(e, k, |data|) && e.states[0] == r.states[0]
    ensures Wave(Last(e), n + 1, 0, data) && Last(e).usage == Last(r).usage && Last(e).files == Last(r).files
  {
    var d := Last(r);
    OneMoreStore(d, n, k, data);
    AdmitSteps(d, quota, n, data);
    hide IsRun, Limited, Wave, Small, Apply, Enabled;
    e := Grow(r, quota, Start(n, NameOf(n), data), k, |data|);
    e := Grow(e, quota, Step(n, true), k, |data|);
    e := Grow(e, quota, Step(n, true), k, |data|);
  }

  lemma AdmitSteps(d: Disk, quota: nat, n: nat, data: Data)
    requires n !in d.stores && NameOf(n) !in d.files && d.usage + |data| <= quota
    ensures Enabled(d, Start(n, NameOf(n), data)) && Apply(d, quota, Start(n, NameOf(n), data)) == At(d, n, data, Looking)
    ensures Enabled(At(d, n, data, Looking), Step(n, true))
    ensures Apply(At(d, n, data, Looking), quota, Step(n, true)) == At(d, n, data, Checking(0))
    ensures Enabled(At(d, n, data, Checking(0)), Step(n, true))
    ensures Apply(At(d, n, data, Checking(0)), quota, Step(n, true)) == At(d, n, data, Writing(0))
  {
    hide NameOf;
  }

  lemma OneMoreStore(d: Disk, n: nat, k: nat, data: Data)
    requires Wave(d, n, 0, data) && n < k
    ensures n !in d.stores && NameOf(n) !in d.files
    ensures forall at :: Small(At(d, n, data, at), k, |data|)
    ensures Wave(At(d, n, data, Writing(0)), n + 1, 0, data)
  {
    hide NameOf;
    StoresCount(n, 0, data);
    assert d.stores[n := Store(NameOf(n), data, Writing(0))] == Stores(n + 1, 0, data);
  }

  /** Each newcomer is checked against a counter that knows nothing of the others. */
  lemma {:induction false} Admit(quota: nat, n: nat, k: nat, first: Data, data: Data) returns (r: Run)
    requires n <= k && |data| <= quota
    ensures IsRun(r, quota) && Limited(r, k, |data|)
    ensures r.states[0].usage == Last(r).usage == quota - |data|
    ensures r.states[0].files == Last(r).files == map["old" := first]
    ensures Wave(Last(r), n, 0, data)
  {
    if n == 0 {
      var files := map["old" := first];
      r := Run([Disk.Disk(files, quota - |data|, map[], Sizes(files))], []);
      assert InProgress(r.states[0]) == {};
      forall t: Tid ensures NameOf(t) !in files {
        NamesDiffer(t, t);
      }
    } else {
      hide Limited, Wave, IsRun;
      r := Admit(quota, n - 1, k, first, data);
      r := AdmitOne(r, quota, n - 1, k, data);
    }
  }

  lemma FinishOne(r: Run, quota: nat, m: nat, k: nat, data: Data) returns (e: Run)
    requires IsRun(r, quota) && Limited(r, k, |data|) && m < k && Wave(Last(r), k, m, data)
    ensures IsRun(e, quota) && Limited(e, k, |data|) && e.states[0] == r.states[0]
    ensures Wave(Last(e), k, m + 1, data)
    ensures Total(Last(e).files) == Total(Last(r).files) + |data|
  {
    var d := Last(r);
    var written := Apply(d, quota, Step(m, true));
    WriteSteps(d, quota, m, k, data);
    TotalWith(d.files, NameOf(m), data);
    hide IsRun, Limited, Wave, Small, Apply, Enabled, Total;
    e := Grow(r, quota, Step(m, true), k, |data|);
    e := Grow(e, quota, Step(m, true), k, |data|);
  }

  lemma WriteSteps(d: Disk, quota: nat, m: nat, k: nat, data: Data)
    requires m < k && Wave(d, k, m, data)
    ensures NameOf(m) !in d.files
    ensures var one := Apply(d, quota, Step(m, true));
            var two := Apply(one, quota, Step(m, true));
            && Enabled(d, Step(m, true)) && Small(one, k, |data|)
            && Enabled(one, Step(m, true)) && Small(two, k, |data|)
            && two.files == d.files[NameOf(m) := data]
            && Wave(two, k, m + 1, data)
  {
    hide NameOf, Sum;
    var one := Apply(d, quota, Step(m, true));
    var two := Apply(one, quota, Step(m, true));
    assert one.stores == d.stores[m := Store(NameOf(m), data, Adding(0))];
    assert two.stores == d.stores[m := Store(NameOf(m), data, Finished(true))];
    assert two.stores == Stores(k, m + 1, data);
    SameCount(d.stores, one.stores, k, m, data);
    SameCount(d.stores, two.stores, k, m, data);
    forall t: Tid | m + 1 <= t ensures NameOf(t) !in two.files {
      NamesDiffer(t, m);
    }
  }

  lemma SameCount(stores: map<Tid, Store>, stores': map<Tid, Store>, k: nat, m: nat, data: Data)
    requires stores == Stores(k, m, data) && stores'.Keys == stores.Keys
    ensures |stores'| == k
  {
    StoresCount(k, m, data);
    assert |stores'| == |stores'.Keys| == |stores|;
  }

  lemma {:induction false} Finish(quota: nat, m: nat, k: nat, first: Data, data: Data) returns (r: Run)
    requires m <= k && |data| <= quota
    ensures IsRun(r, quota) && Limited(r, k, |data|) && Wave(Last(r), k, m, data)
    ensures r.states[0].usage == quota - |data| && r.states[0].files == map["old" := first]
    ensures Total(Last(r).files) == |first| + m * |data|
  {
    hide Limited, Wave, IsRun, Total;
    if m == 0 {
      r := Admit(quota, k, k, first, data);
      OneFile(first);
    } else {
      r := Finish(quota, m - 1, k, first, data);
      r := FinishOne(r, quota, m - 1, k, data);
      OneMore(m - 1, |data|);
    }
  }

  lemma OneFile(first: Data)
    ensures Total(map["old" := first]) == |first|
  {
    assert Sizes(map[])["old" := |first|] == Sizes(map["old" := first]);
    SumWith(Sizes(map[]), "old", |first|);
    assert Sizes(map[]) == map[];
  }

  /** The bound of `DiskWithinBound` cannot be lowered: for every `k`, every size within the quota
      and every start the counter leaves room for one store, some run has `k` stores all return
      Ok and ends with exactly that many bytes on disk. */
  lemma BoundIsReached(quota: nat, k: nat, first: Data, data: Data) returns (r: Run)
    requires k > 0 && |data| <= quota <= |first| + |data|
    ensures IsRun(r, quota) && Limited(r, k, |data|) && r.states[0].usage <= quota
    ensures r.states[0].files == map["old" := first] && Shortfall(r.states[0]) == |first| + |data| - quota
    ensures forall t: Tid :: t < k ==> t in Last(r).stores && Last(r).stores[t].at == Finished(true)
    ensures Total(Last(r).files) == quota + (k - 1) * |data| + Shortfall(r.states[0])
  {
    r := Finish(quota, k, k, first, data);
    OneFile(first);
    OneMore(k - 1, |data|);
  }

  /** Whatever `k` callers do, each with at most `most` bytes, the quota holds. */
  ghost predicate QuotaHolds(quota: nat, k: nat, most: nat) {
    forall r, n: nat ::
      IsRun(r, quota) && n <= |r.labels| && Limited(r, k, most)
      && Total(r.states[0].files) <= r.states[0].usage <= quota ==>
        Total(r.states[n].files) <= quota
  }

  lemma LimitsGrow(r: Run, k: nat, most: nat, k': nat, most': nat)
    requires Limited(r, k, most) && k <= k' && most <= most'
    ensures Limited(r, k', most')
  {
  }

  /** A quota is kept exactly when stores do not overlap, or carry nothing, or are refused. */
  lemma QuotaHoldsExactly(quota: nat, k: nat, most: nat)
    ensures QuotaHolds(quota, k, most) <==> k <= 1 || most == 0 || quota == 0
  {
    var size := Min(most, quota);
    if k <= 1 || size == 0 {
      forall r, n: nat | IsRun(r, quota) && n <= |r.labels| && Limited(r, k, most)
                         && Total(r.states[0].files) <= r.states[0].usage <= quota
        ensures Total(r.states[n].files) <= quota
      {
        var k' := Max(k, 1);
        LimitsGrow(r, k, most, k', most);
        DiskWithinBound(r, quota, n, k', most);
        NothingExtra(k' - 1, size);
      }
    } else {
      var data := seq(size, _ => 0 as bv8);
      var r := BoundIsReached(quota, k, seq(quota - size, _ => 0 as bv8), data);
      LimitsGrow(r, k, size, k, most);
      SomethingExtra(k - 1, size);
      var n := |r.labels|;
      assert Total(r.states[n].files) > quota;
      assert IsRun(r, quota) && Limited(r, k, most);
      OneFile(seq(quota - size, _ => 0 as bv8));
    }
  }

  lemma NothingExtra(a: nat, b: nat)
    requires a == 0 || b == 0
    ensures a * b == 0
  {
  }

  lemma SomethingExtra(a: nat, b: nat)
    requires a > 0 && b > 0
    ensures a * b > 0
  {
  }
}

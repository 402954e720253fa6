/**
 Probe labels (internal/worker/probe.go, labelsPayload, applyDeviceFacts):
 what a host's probes gather, what a failing probe makes doubtful, and what
 the controller ends up storing for each device, pass after pass.
 */
module Probes {
  import opened Wrappers
  import opened Model
  import opened Ownership
  import Ordering
  import Selector

  type Facts = map<string, string>

  datatype Source = Builtin | NvidiaSmi | DropIn(path: string)

  /** Absent: not found on PATH; Broken: found, but it failed. */
  datatype Nvidia = Absent | Broken | Working(facts: Facts)

  datatype Outcome = Reported(facts: Facts) | Errored | NoStat | NotExecutable

  datatype Entry = Entry(path: string, outcome: Outcome)

  /** The probe directory's entries in name order; the pass's budget ended before entry number `budget`. */
  datatype Dir = Missing | Unreadable | Entries(probes: seq<Entry>, budget: nat)

  datatype Pass = Pass(builtin: Facts, nvidia: Nvidia, dir: Dir)

  /** What a worker process remembers: the devices each source named when it last worked, and whether nvidia-smi was there at the start. */
  datatype Memory = Memory(scopes: map<Source, set<string>>, checked: bool, seen: bool)

  const FRESH := Memory(map[], false, false)

  datatype Gathered = Gathered(
    host: Facts, device: map<string, Facts>, unconfirmed: set<string>, scopes: map<Source, set<string>>)

  // ----- One key (classifyKey)

  datatype Kind = HostKey | DeviceKey(dev: string, fact: string) | Invalid

  function Classify(key: string, names: set<string>): Kind {
    if key == "" then Invalid
    else
      match Selector.Index(key, ".")
      case None => HostKey
      case Some(i) =>
        if i == 0 || i == |key| - 1 then Invalid
        else if key[..i] !in names then Invalid
        else DeviceKey(key[..i], key[i + 1..])
  }

  function KeyOf(dev: string, fact: string): string {
    dev + "." + fact
  }

  lemma {:induction false} IndexOfDot(key: string)
    ensures match Selector.Index(key, ".")
            case None => '.' !in key
            case Some(i) => i < |key| && key[i] == '.' && '.' !in key[..i]
  {
    if key != "" && key[..1] != "." {
      IndexOfDot(key[1..]);
      var r := Selector.Index(key[1..], ".");
      if r.Some? {
        assert key[..r.value + 1] == [key[0]] + key[1..][..r.value];
      } else {
        assert key == [key[0]] + key[1..];
      }
    }
  }

  lemma DotBefore(key: string, i: nat, n: nat)
    requires i < |key| && n <= |key| && key[i] == '.'
    ensures i < n ==> '.' in key[..n]
  {
    if i < n { assert key[..n][i] == '.'; }
  }

  /** A device key is exactly a declared name without a dot, a dot, and a label. */
  lemma ClassifyMeans(key: string, names: set<string>, dev: string, fact: string)
    ensures Classify(key, names) == DeviceKey(dev, fact) <==>
            key == KeyOf(dev, fact) && dev in names && dev != "" && '.' !in dev && fact != ""
    ensures Classify(key, names) == HostKey <==> key != "" && '.' !in key
  {
    IndexOfDot(key);
    if key == KeyOf(dev, fact) && '.' !in dev {
      assert key[|dev|] == '.';
      var i := Selector.Index(key, ".").value;
      assert key[..|dev|] == dev;
      DotBefore(key, i, |dev|);
      DotBefore(key, |dev|, i);
      assert key[..i] == dev && key[i + 1..] == fact;
    }
  }

  /** The labels a source's facts give device d. */
  function Labels(facts: Facts, names: set<string>, d: string): Facts {
    map l | l in (set k | k in facts && Classify(k, names).DeviceKey? && Classify(k, names).dev == d :: Classify(k, names).fact)
            && KeyOf(d, l) in facts
      :: facts[KeyOf(d, l)]
  }

  function HostFacts(facts: Facts, names: set<string>): Facts {
    map k | k in facts && Classify(k, names).HostKey? :: facts[k]
  }

  /** The devices a source's facts name. */
  function NamedBy(facts: Facts, names: set<string>): set<string> {
    set k | k in facts && Classify(k, names).DeviceKey? :: Classify(k, names).dev
  }

  lemma NamedMeansLabels(facts: Facts, names: set<string>, d: string)
    ensures d in NamedBy(facts, names) <==> Labels(facts, names, d) != map[]
    ensures NamedBy(facts, names) <= names
  {
    forall k | k in facts && Classify(k, names).DeviceKey?
      ensures k == KeyOf(Classify(k, names).dev, Classify(k, names).fact) && Classify(k, names).dev in names
    {
      ClassifyMeans(k, names, Classify(k, names).dev, Classify(k, names).fact);
    }
    hide Classify, KeyOf;
    if d in NamedBy(facts, names) {
      var k :| k in facts && Classify(k, names).DeviceKey? && Classify(k, names).dev == d;
      assert Classify(k, names).fact in Labels(facts, names, d);
    }
    if Labels(facts, names, d) != map[] {
      var l :| l in Labels(facts, names, d);
    }
  }

  // ----- One pass (gatherLabels)

  function Start(names: set<string>): Gathered {
    Gathered(map[], map d | d in names :: map[], {}, map[])
  }

  /** A source that succeeded: its facts over those before it, and the devices it named. */
  function Merge(g: Gathered, names: set<string>, source: Source, facts: Facts): Gathered {
    g.(host := g.host + HostFacts(facts, names),
       device := map d | d in g.device :: g.device[d] + Labels(facts, names, d),
       scopes := g.scopes[source := NamedBy(facts, names)])
  }

  /** A source that failed: what it speaks for is in doubt, and its scope is carried forward. */
  function Unconfirm(g: Gathered, source: Source, devices: set<string>): Gathered {
    g.(unconfirmed := g.unconfirmed + devices, scopes := g.scopes[source := devices])
  }

  function ScopeOf(m: Memory, source: Source): set<string> {
    if source in m.scopes then m.scopes[source] else {}
  }

  predicate IsGpuName(d: string) {
    |d| > 3 && d[..3] == "gpu" && forall i :: 3 <= i < |d| ==> '0' <= d[i] <= '9'
  }

  function NvidiaScope(m: Memory, names: set<string>): set<string> {
    if ScopeOf(m, NvidiaSmi) == {} then set d | d in names && IsGpuName(d) else ScopeOf(m, NvidiaSmi)
  }

  function SeenAtStart(m: Memory, nv: Nvidia): bool {
    if m.checked then m.seen else !nv.Absent?
  }

  function AfterNvidia(g: Gathered, m: Memory, names: set<string>, nv: Nvidia): Gathered {
    match nv
    case Working(facts) => Merge(g, names, NvidiaSmi, facts)
    case Broken => Unconfirm(g, NvidiaSmi, NvidiaScope(m, names))
    case Absent => if SeenAtStart(m, nv) then Unconfirm(g, NvidiaSmi, NvidiaScope(m, names)) else g
  }

  function AfterEntry(g: Gathered, m: Memory, names: set<string>, e: Entry, skipped: bool): Gathered {
    if skipped then Unconfirm(g, DropIn(e.path), ScopeOf(m, DropIn(e.path)))
    else
      match e.outcome
      case Reported(facts) => Merge(g, names, DropIn(e.path), facts)
      case NotExecutable => g
      case _ => Unconfirm(g, DropIn(e.path), ScopeOf(m, DropIn(e.path)))
  }

  function AfterEntries(g: Gathered, m: Memory, names: set<string>, probes: seq<Entry>, budget: nat, n: nat): Gathered
    requires n <= |probes|
  {
    if n == 0 then g else AfterEntry(AfterEntries(g, m, names, probes, budget, n - 1), m, names, probes[n - 1], n - 1 >= budget)
  }

  /** Every remembered source that has not been heard of in this pass. */
  function Unheard(g: Gathered, m: Memory): set<Source> {
    m.scopes.Keys - g.scopes.Keys
  }

  function AfterDir(g: Gathered, m: Memory, names: set<string>, dir: Dir): Gathered {
    match dir
    case Missing => g
    case Unreadable =>
      g.(unconfirmed := g.unconfirmed + (set s, d | s in Unheard(g, m) && d in ScopeOf(m, s) :: d),
         scopes := map s | s in g.scopes.Keys + Unheard(g, m) :: if s in g.scopes then g.scopes[s] else ScopeOf(m, s))
    case Entries(probes, budget) => AfterEntries(g, m, names, probes, budget, |probes|)
  }

  function Gather(m: Memory, names: set<string>, p: Pass): Gathered {
    AfterDir(AfterNvidia(Merge(Start(names), names, Builtin, p.builtin), m, names, p.nvidia), m, names, p.dir)
  }

  function Remember(m: Memory, names: set<string>, p: Pass): Memory {
    Memory(Gather(m, names, p).scopes, true, SeenAtStart(m, p.nvidia))
  }

  // ----- What is sent, and what is stored

  predicate NothingAtAll(g: Gathered) {
    g.host == map[] && forall d :: d in g.device ==> g.device[d] == map[]
  }

  /** The devices a payload leaves out. */
  predicate Omitted(g: Gathered, d: string) {
    d in g.device && g.device[d] == map[] && d in g.unconfirmed
  }

  /** labelsPayload; the empty name stands for the host. */
  function Payload(g: Gathered): Option<map<string, Facts>> {
    if NothingAtAll(g) then None
    else
      Some((if g.host != map[] then map["" := g.host] else map[])
           + map d | d in g.device && !Omitted(g, d) :: g.device[d])
  }

  function SentIds<T>(host: string, names: set<string>, p: map<string, T>): set<string> {
    set n | n in names && n in p :: DeviceId(host, n)
  }

  function Common(p: map<string, Facts>): Facts {
    if "" in p then p[""] else map[]
  }

  function Sent(host: string, names: set<string>, p: map<string, Facts>): map<string, Facts> {
    map d | d in SentIds(host, names, p) && NameIn(host, d) in p :: Common(p) + p[NameIn(host, d)]
  }

  /** applyDeviceFacts, the labels of one origin: a device present in the payload is replaced. */
  function Applied(detected: map<string, Facts>, host: string, names: set<string>, payload: Option<map<string, Facts>>)
    : map<string, Facts>
  {
    if payload.None? then detected else detected + Sent(host, names, payload.value)
  }

  function SentSheets(host: string, names: set<string>, sheets: map<string, string>): map<string, string> {
    map d | d in SentIds(host, names, sheets) && NameIn(host, d) in sheets :: sheets[NameIn(host, d)]
  }

  /** The usage sheets of a host, its own under the empty name. */
  function Filed(docs: map<string, string>, host: string, names: set<string>, sheet: Option<string>, sheets: map<string, string>)
    : map<string, string>
  {
    (if sheet.Some? then docs["" := sheet.value] else docs) + SentSheets(host, names, sheets)
  }

  /** The device's name within its host. */
  function NameIn(host: string, d: string): string {
    if |d| > |host| then d[|host| + 1..] else ""
  }

  /** One probe interval; delivered: the controller received what was sent. */
  datatype Round = Round(pass: Pass, delivered: bool)

  datatype State = State(memory: Memory, detected: map<string, Facts>)

  function Next(s: State, host: string, names: set<string>, r: Round): State {
    var g := Gather(s.memory, names, r.pass);
    State(Remember(s.memory, names, r.pass),
          if r.delivered then Applied(s.detected, host, names, Payload(g)) else s.detected)
  }

  function After(s: State, host: string, names: set<string>, rs: seq<Round>, n: nat): State
    requires n <= |rs|
  {
    if n == 0 then s else Next(After(s, host, names, rs, n - 1), host, names, rs[n - 1])
  }

  lemma NameOfId(host: string, n: string)
    ensures NameIn(host, DeviceId(host, n)) == n
  {
    assert DeviceId(host, n)[|host| + 1..] == n;
  }

  /** What is stored for a device after a payload: everything new, or everything as it was. */
  lemma StoredAfter(detected: map<string, Facts>, host: string, names: set<string>, g: Gathered, n: string)
    requires n in names && "" !in names && g.device.Keys == names
    ensures var e, d := Applied(detected, host, names, Payload(g)), DeviceId(host, n);
            if NothingAtAll(g) || Omitted(g, n)
            then (d in e <==> d in detected) && (d in e ==> e[d] == detected[d])
            else d in e && e[d] == g.host + g.device[n]
  {
    hide DeviceId, NameIn, NothingAtAll, Omitted;
    forall x ensures NameIn(host, DeviceId(host, x)) == x { NameOfId(host, x); }
    if Payload(g).Some? {
      var p := Payload(g).value;
      assert "" in p <==> g.host != map[];
      assert "" in p ==> p[""] == g.host;
      assert n in p <==> !Omitted(g, n);
      assert n in p ==> p[n] == g.device[n];
    }
  }

  // ----- What a failure makes doubtful

  /** Source s was due in this pass and did not report. */
  predicate FailedIn(m: Memory, p: Pass, s: Source) {
    match s
    case Builtin => false
    case NvidiaSmi =>
      || p.nvidia.Broken? || (p.nvidia.Absent? && SeenAtStart(m, p.nvidia))
      || (p.nvidia.Absent? && p.dir.Unreadable? && s in m.scopes)
    case DropIn(path) => DropInFailed(m, p, path)
  }

  predicate EntryFails(probes: seq<Entry>, budget: nat, i: nat, path: string)
    requires i < |probes|
  {
    probes[i].path == path && (i >= budget || probes[i].outcome.Errored? || probes[i].outcome.NoStat?)
  }

  predicate DropInFailed(m: Memory, p: Pass, path: string) {
    match p.dir
    case Missing => false
    case Unreadable => DropIn(path) in m.scopes
    case Entries(probes, budget) => exists i :: 0 <= i < |probes| && EntryFails(probes, budget, i, path)
  }

  /** The devices s is understood to speak for. */
  function SpeaksFor(m: Memory, names: set<string>, p: Pass, s: Source): set<string> {
    if s.NvidiaSmi? && (p.nvidia.Broken? || SeenAtStart(m, p.nvidia)) then NvidiaScope(m, names) else ScopeOf(m, s)
  }

  lemma {:induction false} EntriesUnconfirm(g: Gathered, m: Memory, names: set<string>, probes: seq<Entry>, budget: nat, n: nat, d: string)
    requires n <= |probes|
    ensures d in AfterEntries(g, m, names, probes, budget, n).unconfirmed <==>
            || d in g.unconfirmed
            || exists i :: 0 <= i < n && EntryFails(probes, budget, i, probes[i].path) && d in ScopeOf(m, DropIn(probes[i].path))
  {
    if n > 0 {
      EntriesUnconfirm(g, m, names, probes, budget, n - 1, d);
      var h, e := AfterEntries(g, m, names, probes, budget, n - 1), probes[n - 1];
      assert AfterEntries(g, m, names, probes, budget, n).unconfirmed
          == if EntryFails(probes, budget, n - 1, e.path) then h.unconfirmed + ScopeOf(m, DropIn(e.path)) else h.unconfirmed;
    }
  }

  /** What the pass has gathered before it turns to the drop-ins. */
  function BeforeDir(m: Memory, names: set<string>, p: Pass): Gathered {
    AfterNvidia(Merge(Start(names), names, Builtin, p.builtin), m, names, p.nvidia)
  }

  lemma BeforeDirDoubts(m: Memory, names: set<string>, p: Pass, d: string)
    ensures var g := BeforeDir(m, names, p);
            && (d in g.unconfirmed <==>
                (p.nvidia.Broken? || (p.nvidia.Absent? && SeenAtStart(m, p.nvidia))) && d in NvidiaScope(m, names))
            && Builtin in g.scopes
            && (NvidiaSmi in g.scopes <==> !p.nvidia.Absent? || SeenAtStart(m, p.nvidia))
            && (forall path :: DropIn(path) !in g.scopes)
  {
  }

  lemma DoubtHasCause(m: Memory, names: set<string>, p: Pass, d: string) returns (s: Source)
    requires d in Gather(m, names, p).unconfirmed
    ensures FailedIn(m, p, s) && d in SpeaksFor(m, names, p, s)
  {
    hide Merge, AfterNvidia, NvidiaScope;
    BeforeDirDoubts(m, names, p, d);
    var g := BeforeDir(m, names, p);
    if d in g.unconfirmed {
      s := NvidiaSmi;
    } else if p.dir.Unreadable? {
      s :| s in Unheard(g, m) && d in ScopeOf(m, s);
    } else {
      EntriesUnconfirm(g, m, names, p.dir.probes, p.dir.budget, |p.dir.probes|, d);
      var i :| 0 <= i < |p.dir.probes| && EntryFails(p.dir.probes, p.dir.budget, i, p.dir.probes[i].path)
               && d in ScopeOf(m, DropIn(p.dir.probes[i].path));
      s := DropIn(p.dir.probes[i].path);
    }
  }

  lemma CauseMakesDoubt(m: Memory, names: set<string>, p: Pass, d: string, s: Source)
    requires FailedIn(m, p, s) && d in SpeaksFor(m, names, p, s)
    ensures d in Gather(m, names, p).unconfirmed
  {
    hide Merge, AfterNvidia, NvidiaScope;
    BeforeDirDoubts(m, names, p, d);
    var g := BeforeDir(m, names, p);
    if p.dir.Entries? { EntriesUnconfirm(g, m, names, p.dir.probes, p.dir.budget, |p.dir.probes|, d); }
    if p.dir.Unreadable? && d !in g.unconfirmed { assert s in Unheard(g, m); }
  }

  /** A device is in doubt exactly when a source that speaks for it failed: no other failure touches it. */
  lemma DoubtIsAttributed(m: Memory, names: set<string>, p: Pass, d: string)
    ensures d in Gather(m, names, p).unconfirmed <==> exists s :: FailedIn(m, p, s) && d in SpeaksFor(m, names, p, s)
  {
    hide Gather, FailedIn, SpeaksFor;
    if d in Gather(m, names, p).unconfirmed { var s := DoubtHasCause(m, names, p, d); }
    if s :| FailedIn(m, p, s) && d in SpeaksFor(m, names, p, s) { CauseMakesDoubt(m, names, p, d, s); }
  }

  // ----- Pass after pass

  /** Nobody but drop-in `path` names device d in this pass. */
  ghost predicate OnlyNamedBy(names: set<string>, p: Pass, path: string, d: string) {
    && d !in NamedBy(p.builtin, names)
    && (p.nvidia.Working? ==> d !in NamedBy(p.nvidia.facts, names))
    && (p.dir.Entries? ==>
          forall i :: 0 <= i < |p.dir.probes| && i < p.dir.budget && p.dir.probes[i].outcome.Reported? ==>
            p.dir.probes[i].path != path && d !in NamedBy(p.dir.probes[i].outcome.facts, names))
  }

  /** The directory holds each path once. */
  ghost predicate OncePerPath(p: Pass) {
    p.dir.Entries? ==> forall i, k :: 0 <= i < k < |p.dir.probes| ==> p.dir.probes[i].path != p.dir.probes[k].path
  }

  lemma MergeNamesNot(g: Gathered, names: set<string>, s: Source, facts: Facts, d: string)
    requires d in g.device && g.device[d] == map[] && d !in NamedBy(facts, names)
    ensures d in Merge(g, names, s, facts).device && Merge(g, names, s, facts).device[d] == map[]
  {
    NamedMeansLabels(facts, names, d);
  }

  lemma {:induction false} EntriesNameNot(g: Gathered, m: Memory, names: set<string>, probes: seq<Entry>, budget: nat, n: nat, d: string)
    requires n <= |probes| && d in g.device && g.device[d] == map[]
    requires forall i :: 0 <= i < n && i < budget && probes[i].outcome.Reported? ==> d !in NamedBy(probes[i].outcome.facts, names)
    ensures var h := AfterEntries(g, m, names, probes, budget, n); d in h.device && h.device[d] == map[]
  {
    hide Merge;
    if n > 0 {
      EntriesNameNot(g, m, names, probes, budget, n - 1, d);
      var h, e := AfterEntries(g, m, names, probes, budget, n - 1), probes[n - 1];
      if e.outcome.Reported? && n - 1 < budget { MergeNamesNot(h, names, DropIn(e.path), e.outcome.facts, d); }
    }
  }

  /** The failing drop-in's scope is carried forward. */
  lemma {:induction false} ScopeCarried(g: Gathered, m: Memory, names: set<string>, probes: seq<Entry>, budget: nat, n: nat, i: nat, path: string)
    requires i < n <= |probes| && EntryFails(probes, budget, i, path)
    requires forall x, y :: 0 <= x < y < |probes| ==> probes[x].path != probes[y].path
    ensures var h := AfterEntries(g, m, names, probes, budget, n);
            DropIn(path) in h.scopes && h.scopes[DropIn(path)] == ScopeOf(m, DropIn(path))
  {
    hide AfterEntry;
    var h := AfterEntries(g, m, names, probes, budget, n - 1);
    if i < n - 1 {
      ScopeCarried(g, m, names, probes, budget, n - 1, i, path);
      assert probes[n - 1].path != probes[i].path;
      OtherScopesStay(h, m, names, probes[n - 1], n - 1 >= budget, DropIn(path));
    } else {
      FailedScope(h, m, names, probes, budget, i, path);
    }
  }

  lemma OtherScopesStay(g: Gathered, m: Memory, names: set<string>, e: Entry, skipped: bool, s: Source)
    requires s != DropIn(e.path)
    ensures var h := AfterEntry(g, m, names, e, skipped);
            (s in h.scopes <==> s in g.scopes) && (s in h.scopes ==> h.scopes[s] == g.scopes[s])
  {
    hide Labels, HostFacts, NamedBy, ScopeOf;
  }

  lemma FailedScope(g: Gathered, m: Memory, names: set<string>, probes: seq<Entry>, budget: nat, i: nat, path: string)
    requires i < |probes| && EntryFails(probes, budget, i, path)
    ensures var h := AfterEntry(g, m, names, probes[i], i >= budget);
            DropIn(path) in h.scopes && h.scopes[DropIn(path)] == ScopeOf(m, DropIn(path))
  {
    hide Merge, ScopeOf;
  }

  /** One failing pass: the device is in doubt, nothing is known of it, and the drop-in still speaks for it. */
  lemma FailingPass(m: Memory, names: set<string>, p: Pass, path: string, d: string)
    requires d in names && OncePerPath(p) && OnlyNamedBy(names, p, path, d)
    requires DropInFailed(m, p, path) && d in ScopeOf(m, DropIn(path))
    ensures Omitted(Gather(m, names, p), d) && d in ScopeOf(Remember(m, names, p), DropIn(path))
  {
    CauseMakesDoubt(m, names, p, d, DropIn(path));
    BeforeDirDoubts(m, names, p, d);
    BeforeDirNamesNot(m, names, p, d);
    var g := BeforeDir(m, names, p);
    hide Merge, AfterNvidia;
    if p.dir.Entries? {
      EntriesNameNot(g, m, names, p.dir.probes, p.dir.budget, |p.dir.probes|, d);
      var i :| 0 <= i < |p.dir.probes| && EntryFails(p.dir.probes, p.dir.budget, i, path);
      ScopeCarried(g, m, names, p.dir.probes, p.dir.budget, |p.dir.probes|, i, path);
    }
  }

  lemma BeforeDirNamesNot(m: Memory, names: set<string>, p: Pass, d: string)
    requires d in names && d !in NamedBy(p.builtin, names) && (p.nvidia.Working? ==> d !in NamedBy(p.nvidia.facts, names))
    ensures var g := BeforeDir(m, names, p); d in g.device && g.device[d] == map[]
  {
    hide Merge;
    var b := Merge(Start(names), names, Builtin, p.builtin);
    MergeNamesNot(Start(names), names, Builtin, p.builtin, d);
    if p.nvidia.Working? { MergeNamesNot(b, names, NvidiaSmi, p.nvidia.facts, d); }
  }

  lemma GatherCoversNames(m: Memory, names: set<string>, p: Pass)
    ensures Gather(m, names, p).device.Keys == names
  {
    hide BeforeDir, Merge, Unheard, AfterEntries;
    GatherCoversBefore(m, names, p);
    GatherIsAfterDir(m, names, p);
    if p.dir.Entries? { EntriesKeepDevices(BeforeDir(m, names, p), m, names, p.dir.probes, p.dir.budget, |p.dir.probes|); }
  }

  lemma GatherIsAfterDir(m: Memory, names: set<string>, p: Pass)
    ensures Gather(m, names, p) == AfterDir(BeforeDir(m, names, p), m, names, p.dir)
  {
    hide Merge, AfterNvidia, AfterDir;
  }

  lemma {:induction false} EntriesKeepDevices(g: Gathered, m: Memory, names: set<string>, probes: seq<Entry>, budget: nat, n: nat)
    requires n <= |probes|
    ensures AfterEntries(g, m, names, probes, budget, n).device.Keys == g.device.Keys
  {
    hide Labels, HostFacts, NamedBy;
    if n > 0 { EntriesKeepDevices(g, m, names, probes, budget, n - 1); }
  }

  predicate SameAt(a: map<string, Facts>, b: map<string, Facts>, d: string) {
    (d in b <==> d in a) && (d in a && d in b ==> b[d] == a[d])
  }

  /** What the controller stores for a device after a round: the fresh facts, or exactly what it stored before. */
  lemma RoundDecides(s: State, host: string, names: set<string>, r: Round, n: string)
    requires n in names && "" !in names
    ensures var t, g, d := Next(s, host, names, r), Gather(s.memory, names, r.pass), DeviceId(host, n);
            && n in g.device
            && var silent := g.host == map[] && forall x :: x in g.device ==> g.device[x] == map[];
               var doubtful := g.device[n] == map[] && n in g.unconfirmed;
               if !r.delivered || silent || doubtful then SameAt(s.detected, t.detected, d)
               else d in t.detected && t.detected[d] == g.host + g.device[n]
  {
    var g := Gather(s.memory, names, r.pass);
    GatherCoversNames(s.memory, names, r.pass);
    StoredAfter(s.detected, host, names, g, n);
    hide Gather, Applied, Payload, Remember;
  }

  /** The drop-in could not report in this pass: it failed, its turn never came, or the directory was unreadable. */
  ghost predicate Outage(p: Pass, path: string) {
    || p.dir.Unreadable?
    || (p.dir.Entries? && exists i :: 0 <= i < |p.dir.probes| && EntryFails(p.dir.probes, p.dir.budget, i, path))
  }

  lemma {:induction false} OutageHolds(s: State, host: string, names: set<string>, rs: seq<Round>, m: nat, n: nat, path: string, d: string)
    requires m <= n <= |rs| && d in names && "" !in names && d in ScopeOf(After(s, host, names, rs, m).memory, DropIn(path))
    requires forall i :: m <= i < n ==>
               OncePerPath(rs[i].pass) && OnlyNamedBy(names, rs[i].pass, path, d) && Outage(rs[i].pass, path)
    ensures SameAt(After(s, host, names, rs, m).detected, After(s, host, names, rs, n).detected, DeviceId(host, d))
    ensures d in ScopeOf(After(s, host, names, rs, n).memory, DropIn(path))
  {
    hide Gather, Applied, Payload, Remember, OnlyNamedBy, OncePerPath, DeviceId, EntryFails;
    if m < n {
      OutageHolds(s, host, names, rs, m, n - 1, path, d);
      var x := After(s, host, names, rs, n - 1);
      assert DropInFailed(x.memory, rs[n - 1].pass, path);
      hide DropInFailed, Outage;
      FailingPass(x.memory, names, rs[n - 1].pass, path, d);
      RoundDecides(x, host, names, rs[n - 1], d);
    }
  }

  /** A drop-in that works is remembered for exactly the devices it named. */
  lemma SuccessIsRemembered(m: Memory, names: set<string>, p: Pass, i: nat)
    requires OncePerPath(p) && p.dir.Entries? && i < |p.dir.probes| && i < p.dir.budget && p.dir.probes[i].outcome.Reported?
    ensures ScopeOf(Remember(m, names, p), DropIn(p.dir.probes[i].path)) == NamedBy(p.dir.probes[i].outcome.facts, names)
  {
    hide Merge, AfterNvidia;
    SuccessInEntries(BeforeDir(m, names, p), m, names, p.dir.probes, p.dir.budget, |p.dir.probes|, i);
  }

  lemma {:induction false} SuccessInEntries(g: Gathered, m: Memory, names: set<string>, probes: seq<Entry>, budget: nat, n: nat, i: nat)
    requires i < n <= |probes| && i < budget && probes[i].outcome.Reported?
    requires forall x, y :: 0 <= x < y < |probes| ==> probes[x].path != probes[y].path
    ensures var h := AfterEntries(g, m, names, probes, budget, n);
            DropIn(probes[i].path) in h.scopes && h.scopes[DropIn(probes[i].path)] == NamedBy(probes[i].outcome.facts, names)
  {
    hide AfterEntry, NamedBy;
    var h := AfterEntries(g, m, names, probes, budget, n - 1);
    if i < n - 1 {
      SuccessInEntries(g, m, names, probes, budget, n - 1, i);
      assert probes[n - 1].path != probes[i].path;
      OtherScopesStay(h, m, names, probes[n - 1], n - 1 >= budget, DropIn(probes[i].path));
    } else {
      ReportedScope(h, m, names, probes[i]);
    }
  }

  lemma ReportedScope(g: Gathered, m: Memory, names: set<string>, e: Entry)
    requires e.outcome.Reported?
    ensures var h := AfterEntry(g, m, names, e, false);
            DropIn(e.path) in h.scopes && h.scopes[DropIn(e.path)] == NamedBy(e.outcome.facts, names)
  {
    hide Labels, HostFacts, NamedBy, ScopeOf;
  }

  /** In this pass drop-in `path` worked and named d. */
  ghost predicate WorkedFor(names: set<string>, p: Pass, path: string, d: string) {
    && p.dir.Entries?
    && exists i :: && 0 <= i < |p.dir.probes| && i < p.dir.budget && p.dir.probes[i].path == path
                   && p.dir.probes[i].outcome.Reported? && d in NamedBy(p.dir.probes[i].outcome.facts, names)
  }

  /**
   A drop-in that named a device in pass m and then fails, for as many passes
   as it takes, while no other source names that device, leaves the device's
   stored labels exactly as they were after pass m.
   */
  lemma OutagePreservesLabels(s: State, host: string, names: set<string>, rs: seq<Round>, m: nat, n: nat, path: string, d: string)
    requires m < n <= |rs| && d in names && "" !in names
    requires OncePerPath(rs[m].pass) && WorkedFor(names, rs[m].pass, path, d)
    requires forall i :: m < i < n ==>
               OncePerPath(rs[i].pass) && OnlyNamedBy(names, rs[i].pass, path, d) && Outage(rs[i].pass, path)
    ensures SameAt(After(s, host, names, rs, m + 1).detected, After(s, host, names, rs, n).detected, DeviceId(host, d))
  {
    var p, x := rs[m].pass, After(s, host, names, rs, m);
    var i :| 0 <= i < |p.dir.probes| && i < p.dir.budget && p.dir.probes[i].path == path
             && p.dir.probes[i].outcome.Reported? && d in NamedBy(p.dir.probes[i].outcome.facts, names);
    SuccessIsRemembered(x.memory, names, p, i);
    hide Gather, Remember, Applied, Payload, OncePerPath, OnlyNamedBy, Outage, NamedBy;
    OutageHolds(s, host, names, rs, m + 1, n, path, d);
  }

  /** A device no failing source speaks for is replaced with this pass's facts on every pass that yields a payload. */
  lemma CoveredDevicesRefresh(s: State, host: string, names: set<string>, r: Round, n: string)
    requires n in names && "" !in names && r.delivered && !NothingAtAll(Gather(s.memory, names, r.pass))
    requires forall x :: FailedIn(s.memory, r.pass, x) ==> n !in SpeaksFor(s.memory, names, r.pass, x)
    ensures var t, g := Next(s, host, names, r), Gather(s.memory, names, r.pass);
            n in g.device && DeviceId(host, n) in t.detected && t.detected[DeviceId(host, n)] == g.host + g.device[n]
  {
    DoubtIsAttributed(s.memory, names, r.pass, n);
    RoundDecides(s, host, names, r, n);
    hide Gather, FailedIn, SpeaksFor;
  }

  lemma {:induction false} EntriesRemember(g: Gathered, m: Memory, names: set<string>, probes: seq<Entry>, budget: nat, n: nat, s: Source)
    requires n <= |probes|
    ensures s in AfterEntries(g, m, names, probes, budget, n).scopes ==>
              s in g.scopes || exists i :: 0 <= i < n && s == DropIn(probes[i].path) && !(i < budget && probes[i].outcome.NotExecutable?)
  {
    if n > 0 { EntriesRemember(g, m, names, probes, budget, n - 1, s); }
  }

  /** A drop-in gone from the directory, or no longer executable, is forgotten, so what it reported clears the ordinary way. */
  lemma RemovedProbeIsForgotten(m: Memory, names: set<string>, p: Pass, path: string)
    requires p.dir.Missing? || p.dir.Entries?
    requires p.dir.Entries? ==>
               forall i :: 0 <= i < |p.dir.probes| && p.dir.probes[i].path == path ==> i < p.dir.budget && p.dir.probes[i].outcome.NotExecutable?
    ensures DropIn(path) !in Remember(m, names, p).scopes
  {
    BeforeDirDoubts(m, names, p, "");
    hide Merge, AfterNvidia;
    if p.dir.Entries? {
      EntriesRemember(BeforeDir(m, names, p), m, names, p.dir.probes, p.dir.budget, |p.dir.probes|, DropIn(path));
    }
  }

  /** A device's usage sheet is the one sent with its name, the host's own is the one sent for the host; what was not sent stands. */
  lemma SheetsAreFiled(docs: map<string, string>, host: string, names: set<string>, sheet: Option<string>, sheets: map<string, string>, n: string)
    ensures var filed, d := Filed(docs, host, names, sheet, sheets), DeviceId(host, n);
            && Lookup(filed, "") == (if sheet.Some? then sheet else Lookup(docs, ""))
            && Lookup(filed, d) == if n in names && n in sheets then Some(sheets[n]) else Lookup(docs, d)
  {
    NameOfId(host, n);
    assert forall x :: DeviceId(host, x) != "";
    forall x ensures NameIn(host, DeviceId(host, x)) == x { NameOfId(host, x); }
    hide DeviceId, NameIn;
  }

  // ----- Whose word counts

  /** What the sources that succeeded said, in the order they are asked: built in, nvidia-smi, drop-ins by name. */
  function Heardings(p: Pass): seq<Facts> {
    [p.builtin] + (if p.nvidia.Working? then [p.nvidia.facts] else [])
    + (if p.dir.Entries? then Successes(p.dir.probes, p.dir.budget, |p.dir.probes|) else [])
  }

  function Successes(probes: seq<Entry>, budget: nat, n: nat): seq<Facts>
    requires n <= |probes|
  {
    if n == 0 then []
    else
      Successes(probes, budget, n - 1)
      + (if n - 1 < budget && probes[n - 1].outcome.Reported? then [probes[n - 1].outcome.facts] else [])
  }

  /** The last word on a key. */
  function LastWord(said: seq<Facts>, k: string): Option<string> {
    if said == [] then None
    else if k in said[|said| - 1] then Some(said[|said| - 1][k])
    else LastWord(said[..|said| - 1], k)
  }

  function Lookup(f: Facts, k: string): Option<string> {
    if k in f then Some(f[k]) else None
  }

  /** g holds, under the host's keys and each device's, the last word of what was said. */
  ghost predicate Holds(g: Gathered, names: set<string>, said: seq<Facts>) {
    && g.device.Keys == names
    && (forall k :: Lookup(g.host, k) == if k != "" && '.' !in k then LastWord(said, k) else None)
    && (forall d, l :: d in names ==>
          Lookup(g.device[d], l) == if d != "" && '.' !in d && l != "" then LastWord(said, d + "." + l) else None)
  }

  lemma HoldsNext(g: Gathered, names: set<string>, said: seq<Facts>, source: Source, facts: Facts)
    requires Holds(g, names, said)
    ensures Holds(Merge(g, names, source, facts), names, said + [facts])
  {
    hide Classify, HostFacts, Labels, LastWord, Lookup;
    var h := Merge(g, names, source, facts);
    forall k ensures Lookup(h.host, k) == if k != "" && '.' !in k then LastWord(said + [facts], k) else None {
      HostNextAt(g, names, said, facts, k);
    }
    forall d, l | d in names
      ensures Lookup(h.device[d], l) == if d != "" && '.' !in d && l != "" then LastWord(said + [facts], d + "." + l) else None {
      HoldsNextAt(g, names, said, facts, d, l);
    }
  }

  lemma HostNextAt(g: Gathered, names: set<string>, said: seq<Facts>, facts: Facts, k: string)
    requires Holds(g, names, said)
    ensures Lookup(g.host + HostFacts(facts, names), k) == if k != "" && '.' !in k then LastWord(said + [facts], k) else None
  {
    assert (said + [facts])[..|said|] == said;
    ClassifyMeans(k, names, "", "");
    assert Lookup(g.host, k) == if k != "" && '.' !in k then LastWord(said, k) else None;
    hide Classify;
  }

  lemma HoldsNextAt(g: Gathered, names: set<string>, said: seq<Facts>, facts: Facts, d: string, l: string)
    requires Holds(g, names, said) && d in names
    ensures Lookup(g.device[d] + Labels(facts, names, d), l)
         == if d != "" && '.' !in d && l != "" then LastWord(said + [facts], d + "." + l) else None
  {
    assert (said + [facts])[..|said|] == said;
    LabelsHas(facts, names, d);
    ClassifyMeans(KeyOf(d, l), names, d, l);
    assert Lookup(g.device[d], l) == if d != "" && '.' !in d && l != "" then LastWord(said, d + "." + l) else None;
    hide Labels, Classify;
  }

  lemma {:induction false} EntriesHold(g: Gathered, m: Memory, names: set<string>, said: seq<Facts>, probes: seq<Entry>, budget: nat, n: nat)
    requires n <= |probes| && Holds(g, names, said)
    ensures Holds(AfterEntries(g, m, names, probes, budget, n), names, said + Successes(probes, budget, n))
  {
    if n == 0 {
      assert said + [] == said;
    } else {
      EntriesHold(g, m, names, said, probes, budget, n - 1);
      var h, e := AfterEntries(g, m, names, probes, budget, n - 1), probes[n - 1];
      var more := said + Successes(probes, budget, n - 1);
      hide Holds, Merge, LastWord;
      if n - 1 < budget && e.outcome.Reported? {
        HoldsNext(h, names, more, DropIn(e.path), e.outcome.facts);
        assert said + Successes(probes, budget, n) == more + [e.outcome.facts];
      } else {
        DoubtHolds(h, names, more, DropIn(e.path), ScopeOf(m, DropIn(e.path)));
        assert said + Successes(probes, budget, n) == more;
      }
    }
  }

  lemma DoubtHolds(g: Gathered, names: set<string>, said: seq<Facts>, source: Source, ds: set<string>)
    requires Holds(g, names, said)
    ensures Holds(Unconfirm(g, source, ds), names, said)
  {
    hide LastWord;
  }

  /**
   A pass gathers exactly what its sources said: under each key of the host
   and of each declared device, the word of the last source that had one.
   */
  lemma GatherIsLastWord(m: Memory, names: set<string>, p: Pass)
    ensures Holds(Gather(m, names, p), names, Heardings(p))
  {
    hide Holds, Merge, LastWord, Successes;
    StartHolds(names);
    HoldsNext(Start(names), names, [], Builtin, p.builtin);
    var b := Merge(Start(names), names, Builtin, p.builtin);
    var said := [p.builtin] + (if p.nvidia.Working? then [p.nvidia.facts] else []);
    assert [] + [p.builtin] == [p.builtin] && [p.builtin] + [] == [p.builtin];
    if p.nvidia.Working? { HoldsNext(b, names, [p.builtin], NvidiaSmi, p.nvidia.facts); }
    DoubtHolds(b, names, [p.builtin], NvidiaSmi, NvidiaScope(m, names));
    var g := BeforeDir(m, names, p);
    assert Holds(g, names, said);
    GatherIsAfterDir(m, names, p);
    assert said + [] == said;
    if p.dir.Entries? {
      EntriesHold(g, m, names, said, p.dir.probes, p.dir.budget, |p.dir.probes|);
    } else if p.dir.Unreadable? {
      UnreadHolds(g, m, names, said);
    }
    hide BeforeDir, Gather;
  }

  lemma StartHolds(names: set<string>)
    ensures Holds(Start(names), names, [])
  {
  }

  lemma UnreadHolds(g: Gathered, m: Memory, names: set<string>, said: seq<Facts>)
    requires Holds(g, names, said)
    ensures Holds(AfterDir(g, m, names, Unreadable), names, said)
  {
    hide LastWord;
  }

  // ----- nvidia-smi

  /** The name is gpu and a number. */
  lemma GpuNamesAreNumbered(d: string)
    ensures IsGpuName(d) <==> exists n: string :: n != "" && (forall c :: c in n ==> c in "0123456789") && d == "gpu" + n
  {
    DigitsAre();
    if IsGpuName(d) {
      var n := d[3..];
      assert d == "gpu" + n;
      forall c | c in n ensures c in "0123456789" {
        var i :| 0 <= i < |n| && n[i] == c;
        assert n[i] == d[3 + i];
      }
    }
    if n: string :| n != "" && (forall c :: c in n ==> c in "0123456789") && d == "gpu" + n {
      forall i | 3 <= i < |d| ensures '0' <= d[i] <= '9' { assert d[i] == n[i - 3] && n[i - 3] in n; }
      assert d[..3] == "gpu";
    }
  }

  lemma DigitsAre()
    ensures forall c: char :: c in "0123456789" <==> '0' <= c <= '9'
  {
    var s := "0123456789";
    assert s[0] == '0' && s[1] == '1' && s[2] == '2' && s[3] == '3' && s[4] == '4' && s[5] == '5' && s[6] == '6' && s[7] == '7'
           && s[8] == '8' && s[9] == '9';
  }

  /** Whether nvidia-smi belongs on this host is settled by the first pass. */
  lemma {:induction false} FirstPassSettles(host: string, names: set<string>, detected: map<string, Facts>, rs: seq<Round>, n: nat)
    requires 0 < n <= |rs|
    ensures var m := After(State(FRESH, detected), host, names, rs, n).memory; m.checked && (m.seen <==> rs[0].pass.nvidia != Absent)
  {
    hide Gather, Applied;
    if n > 1 { FirstPassSettles(host, names, detected, rs, n - 1); }
    else { assert After(State(FRESH, detected), host, names, rs, 0) == State(FRESH, detected); }
  }

  /**
   When nvidia-smi works it is remembered for the devices it named. When it
   fails, or is missing where it was there at first, those are in doubt, or, if there are
   none, the declared devices with a GPU's name; and that is remembered.
   */
  lemma NvidiaIsRemembered(m: Memory, names: set<string>, p: Pass)
    requires m.checked
    ensures var before := if NvidiaSmi in m.scopes then m.scopes[NvidiaSmi] else {};
            var gpus := set d | d in names && IsGpuName(d);
            var after := Remember(m, names, p).scopes;
            && (p.nvidia.Working? ==> NvidiaSmi in after && after[NvidiaSmi] == NamedBy(p.nvidia.facts, names))
            && (p.nvidia.Broken? || (p.nvidia.Absent? && m.seen) ==>
                  && NvidiaSmi in after && after[NvidiaSmi] == (if before == {} then gpus else before)
                  && after[NvidiaSmi] <= Gather(m, names, p).unconfirmed)
            && (p.nvidia.Absent? && !m.seen && !p.dir.Unreadable? ==> NvidiaSmi !in after)
  {
    var g := BeforeDir(m, names, p);
    assert NvidiaSmi in g.scopes ==> g.scopes[NvidiaSmi] == if p.nvidia.Working? then NamedBy(p.nvidia.facts, names) else NvidiaScope(m, names);
    BeforeDirDoubts(m, names, p, "");
    forall d ensures d in NvidiaScope(m, names) && NvidiaSmi in g.scopes && !p.nvidia.Working? ==> d in g.unconfirmed { BeforeDirDoubts(m, names, p, d); }
    GatherIsAfterDir(m, names, p);
    hide BeforeDir, Gather, NamedBy, IsGpuName;
    if p.dir.Entries? { EntriesLeaveNvidia(g, m, names, p.dir.probes, p.dir.budget, |p.dir.probes|); }
  }

  lemma {:induction false} EntriesLeaveNvidia(g: Gathered, m: Memory, names: set<string>, probes: seq<Entry>, budget: nat, n: nat)
    requires n <= |probes|
    ensures var h := AfterEntries(g, m, names, probes, budget, n);
            && g.unconfirmed <= h.unconfirmed
            && (NvidiaSmi in h.scopes <==> NvidiaSmi in g.scopes)
            && (NvidiaSmi in g.scopes ==> h.scopes[NvidiaSmi] == g.scopes[NvidiaSmi])
  {
    hide Labels, HostFacts, NamedBy;
    if n > 0 { EntriesLeaveNvidia(g, m, names, probes, budget, n - 1); }
  }

  // ----- The worker and the controller, statement by statement

  lemma HostFactsAdd(part: Facts, names: set<string>, k: string, v: string)
    requires k !in part
    ensures HostFacts(part[k := v], names) ==
            if Classify(k, names).HostKey? then HostFacts(part, names)[k := v] else HostFacts(part, names)
  {
    hide Classify;
  }

  lemma LabelsAdd(part: Facts, names: set<string>, k: string, v: string, d: string)
    requires k !in part
    ensures Labels(part[k := v], names, d) ==
            if Classify(k, names).DeviceKey? && Classify(k, names).dev == d
            then Labels(part, names, d)[Classify(k, names).fact := v] else Labels(part, names, d)
  {
    hide Classify, KeyOf, Labels;
    var kind := Classify(k, names);
    var x := Labels(part[k := v], names, d);
    var y := if kind.DeviceKey? && kind.dev == d then Labels(part, names, d)[kind.fact := v] else Labels(part, names, d);
    forall f ensures (f in x <==> f in y) && (f in x ==> x[f] == y[f]) { LabelAdded(part, names, k, v, d, f); }
  }

  lemma LabelAdded(part: Facts, names: set<string>, k: string, v: string, d: string, f: string)
    requires k !in part
    ensures var kind := Classify(k, names);
            var x := Labels(part[k := v], names, d);
            var y := if kind.DeviceKey? && kind.dev == d then Labels(part, names, d)[kind.fact := v] else Labels(part, names, d);
            (f in x <==> f in y) && (f in x ==> x[f] == y[f])
  {
    hide Classify, KeyOf, Labels;
    var kind := Classify(k, names);
    LabelsHas(part[k := v], names, d);
    LabelsHas(part, names, d);
    if kind.DeviceKey? { ClassifyMeans(k, names, kind.dev, kind.fact); }
  }

  lemma LabelsHas(facts: Facts, names: set<string>, d: string)
    ensures forall f :: f in Labels(facts, names, d) <==> KeyOf(d, f) in facts && Classify(KeyOf(d, f), names) == DeviceKey(d, f)
    ensures forall f :: f in Labels(facts, names, d) ==> Labels(facts, names, d)[f] == facts[KeyOf(d, f)]
  {
    hide Classify, KeyOf;
    forall f ensures f in Labels(facts, names, d) <==> KeyOf(d, f) in facts && Classify(KeyOf(d, f), names) == DeviceKey(d, f) {
      if f in Labels(facts, names, d) {
        var k :| k in facts && Classify(k, names).DeviceKey? && Classify(k, names).dev == d && Classify(k, names).fact == f;
        ClassifyMeans(k, names, d, f);
      }
    }
  }

  /** The keys of part have been put where they belong. */
  ghost predicate Merged(g: Gathered, part: Facts, names: set<string>, host: Facts, device: map<string, Facts>, named: set<string>) {
    && g.device.Keys == names && device.Keys == names
    && host == g.host + HostFacts(part, names) && named == NamedBy(part, names)
    && forall d :: d in names ==> device[d] == g.device[d] + Labels(part, names, d)
  }

  lemma MergedNone(g: Gathered, names: set<string>)
    requires g.device.Keys == names
    ensures Merged(g, map[], names, g.host, g.device, {})
  {
  }

  lemma MergedNext(g: Gathered, part: Facts, names: set<string>, host: Facts, device: map<string, Facts>, named: set<string>,
                   k: string, v: string)
    requires Merged(g, part, names, host, device, named) && k !in part
    ensures match Classify(k, names)
            case HostKey => Merged(g, part[k := v], names, host[k := v], device, named)
            case DeviceKey(dev, fact) =>
              dev in names && Merged(g, part[k := v], names, host, device[dev := device[dev][fact := v]], named + {dev})
            case Invalid => Merged(g, part[k := v], names, host, device, named)
  {
    hide Classify, Labels, HostFacts, NamedBy;
    HostFactsAdd(part, names, k, v);
    NamedByAdd(part, names, k, v);
    forall d ensures Labels(part[k := v], names, d) ==
                       if Classify(k, names).DeviceKey? && Classify(k, names).dev == d
                       then Labels(part, names, d)[Classify(k, names).fact := v] else Labels(part, names, d) {
      LabelsAdd(part, names, k, v, d);
    }
    match Classify(k, names) {
      case HostKey => OverAssoc(g.host, HostFacts(part, names), k, v);
      case DeviceKey(dev, fact) => OverAssoc(g.device[dev], Labels(part, names, dev), fact, v);
      case Invalid =>
    }
  }

  lemma OverAssoc(under: Facts, over: Facts, k: string, v: string)
    ensures (under + over)[k := v] == under + over[k := v]
  {
  }

  lemma MergedAll(g: Gathered, facts: Facts, names: set<string>, host: Facts, device: map<string, Facts>, named: set<string>, source: Source)
    requires Merged(g, facts, names, host, device, named)
    ensures g.(host := host, device := device, scopes := g.scopes[source := named]) == Merge(g, names, source, facts)
  {
    hide Labels, HostFacts, NamedBy;
  }

  /** mergeProbeFacts: every key where it belongs, and the devices named. */
  method MergeProbeFacts(g: Gathered, facts: Facts, names: set<string>, source: Source) returns (r: Gathered)
    requires g.device.Keys == names
    ensures r == Merge(g, names, source, facts)
  {
    hide Merged, Merge, Classify;
    var host, device, named, rest := g.host, g.device, {}, facts.Keys;
    ghost var part: Facts := map[];
    MergedNone(g, names);
    assert device.Keys == names;
    while rest != {}
      invariant rest <= facts.Keys && part.Keys == facts.Keys - rest && (forall k :: k in part ==> part[k] == facts[k])
      invariant Merged(g, part, names, host, device, named) && device.Keys == names
      decreases |rest|
    {
      var k :| k in rest;
      MergedNext(g, part, names, host, device, named, k, facts[k]);
      match Classify(k, names) {
        case HostKey => host := host[k := facts[k]];
        case DeviceKey(dev, fact) =>
          device := device[dev := device[dev][fact := facts[k]]];
          named := named + {dev};
        case Invalid =>
      }
      rest := rest - {k};
      part := part[k := facts[k]];
    }
    assert part == facts;
    MergedAll(g, facts, names, host, device, named, source);
    r := g.(host := host, device := device, scopes := g.scopes[source := named]);
  }

  lemma NamedByAdd(part: Facts, names: set<string>, k: string, v: string)
    requires k !in part
    ensures NamedBy(part[k := v], names) ==
            if Classify(k, names).DeviceKey? then NamedBy(part, names) + {Classify(k, names).dev} else NamedBy(part, names)
    ensures Classify(k, names).DeviceKey? ==> Classify(k, names).dev in names
  {
    if Classify(k, names).DeviceKey? { ClassifyMeans(k, names, Classify(k, names).dev, Classify(k, names).fact); }
    hide Classify;
  }

  /** nvidiaScopedDevices */
  method NvidiaScopedDevices(names: set<string>) returns (scope: set<string>)
    ensures scope == set d | d in names && IsGpuName(d)
  {
    scope := {};
    var rest := names;
    while rest != {}
      invariant rest <= names && scope == set d | d in names - rest && IsGpuName(d)
      decreases |rest|
    {
      var d :| d in rest;
      rest := rest - {d};
      if |d| <= 3 || d[..3] != "gpu" { continue; }
      var allDigits := true;
      for i := 3 to |d|
        invariant allDigits <==> forall k :: 3 <= k < i ==> '0' <= d[k] <= '9'
      {
        if !('0' <= d[i] <= '9') { allDigits := false; }
      }
      if allDigits { scope := scope + {d}; }
    }
  }

  class Prober {
    const names: set<string>
    var probeSourceDevices: map<Source, set<string>>
    var checked: bool
    var seenAtStartup: bool
    var labelOmitWarned: set<string>

    ghost function View(): Memory
      reads this
    {
      Memory(probeSourceDevices, checked, seenAtStartup)
    }

    constructor (names: set<string>)
      ensures View() == FRESH && this.names == names && labelOmitWarned == {}
    {
      this.names := names;
      probeSourceDevices, checked, seenAtStartup, labelOmitWarned := map[], false, false, {};
    }

    method GatherLabels(p: Pass) returns (g: Gathered)
      modifies this`probeSourceDevices, this`checked, this`seenAtStartup
      ensures g == Gather(old(View()), names, p) && View() == Remember(old(View()), names, p)
    {
      hide Merge;
      ghost var m := View();
      g := Start(names);
      g := MergeProbeFacts(g, p.builtin, names, Builtin);
      MergeKeeps(Start(names), names, Builtin, p.builtin);
      if p.nvidia.Working? {
        g := MergeProbeFacts(g, p.nvidia.facts, names, NvidiaSmi);
      }
      if !checked {
        checked := true;
        seenAtStartup := !p.nvidia.Absent?;
      }
      if p.nvidia.Broken? || (p.nvidia.Absent? && seenAtStartup) {
        var scope := if NvidiaSmi in probeSourceDevices then probeSourceDevices[NvidiaSmi] else {};
        if scope == {} { scope := NvidiaScopedDevices(names); }
        g := Unconfirm(g, NvidiaSmi, scope);
      }
      assert g == BeforeDir(m, names, p);
      GatherCoversBefore(m, names, p);
      match p.dir {
        case Missing =>
        case Unreadable => g := UnconfirmUnheard(g, m);
        case Entries(probes, budget) => g := RunProbes(g, m, probes, budget);
      }
      probeSourceDevices := g.scopes;
    }

    /** The probe directory could not be read: whatever was not heard of fails. */
    method UnconfirmUnheard(before: Gathered, ghost m: Memory) returns (g: Gathered)
      requires m.scopes == probeSourceDevices
      ensures g == AfterDir(before, m, names, Unreadable)
    {
      hide Heard;
      g := before;
      var rest := probeSourceDevices.Keys;
      HeardNone(before, m);
      while rest != {}
        invariant rest <= probeSourceDevices.Keys && Heard(before, m, rest, g)
        decreases |rest|
      {
        var source :| source in rest;
        HeardNext(before, m, rest, g, source);
        if source !in before.scopes { g := Unconfirm(g, source, probeSourceDevices[source]); }
        rest := rest - {source};
      }
      HeardAll(before, m, g);
    }

    method RunProbes(before: Gathered, ghost m: Memory, probes: seq<Entry>, budget: nat) returns (g: Gathered)
      requires before.device.Keys == names && m.scopes == probeSourceDevices
      ensures g == AfterEntries(before, m, names, probes, budget, |probes|)
    {
      hide Merge;
      g := before;
      for i := 0 to |probes|
        invariant g == AfterEntries(before, m, names, probes, budget, i) && g.device.Keys == names
      {
        var source := DropIn(probes[i].path);
        var scope := if source in probeSourceDevices then probeSourceDevices[source] else {};
        EntriesKeepDevices(before, m, names, probes, budget, i + 1);
        if i >= budget {
          g := Unconfirm(g, source, scope);
        } else if probes[i].outcome.NoStat? {
          g := Unconfirm(g, source, scope);
        } else if probes[i].outcome.Errored? {
          g := Unconfirm(g, source, scope);
        } else if probes[i].outcome.Reported? {
          g := MergeProbeFacts(g, probes[i].outcome.facts, names, source);
        }
      }
    }

    /** labelsPayload. logged: the devices whose omission is reported now, once per episode. */
    method LabelsPayload(g: Gathered) returns (payload: Option<map<string, Facts>>, logged: set<string>)
      modifies this`labelOmitWarned
      ensures payload == Payload(g)
      ensures NothingAtAll(g) ==> labelOmitWarned == old(labelOmitWarned) && logged == {}
      ensures !NothingAtAll(g) ==>
                && logged == (set d | d in g.device && Omitted(g, d) && d !in old(labelOmitWarned))
                && labelOmitWarned == (old(labelOmitWarned) - g.device.Keys) + (set d | d in g.device && Omitted(g, d))
    {
      logged := {};
      var allEmpty := AllEmpty(g);
      if allEmpty { return None, {}; }
      hide Sorted, NothingAtAll;
      var out: map<string, Facts> := if g.host != map[] then map["" := g.host] else map[];
      ghost var first := out;
      var rest := g.device.Keys;
      SortedNone(g, first, labelOmitWarned);
      while rest != {}
        invariant rest <= g.device.Keys && Sorted(g, rest, first, old(labelOmitWarned), out, logged, labelOmitWarned)
        decreases |rest|
      {
        var d :| d in rest;
        SortedNext(g, rest, first, old(labelOmitWarned), out, logged, labelOmitWarned, d);
        rest := rest - {d};
        if g.device[d] != map[] || d !in g.unconfirmed {
          out := out[d := g.device[d]];
          labelOmitWarned := labelOmitWarned - {d};
        } else if d !in labelOmitWarned {
          logged := logged + {d};
          labelOmitWarned := labelOmitWarned + {d};
        }
      }
      SortedAll(g, first, old(labelOmitWarned), out, logged, labelOmitWarned);
      return Some(out), logged;
    }
  }

  /** The remembered sources outside rest, unless heard of before, have been made to fail. */
  ghost predicate Heard(before: Gathered, m: Memory, rest: set<Source>, g: Gathered) {
    && g.host == before.host && g.device == before.device
    && (forall s :: s in g.scopes <==> s in before.scopes || (s in m.scopes && s !in rest))
    && (forall s :: s in g.scopes ==> g.scopes[s] == if s in before.scopes then before.scopes[s] else ScopeOf(m, s))
    && (forall d :: d in g.unconfirmed <==>
          d in before.unconfirmed || exists s :: s in m.scopes && s !in before.scopes && s !in rest && d in ScopeOf(m, s))
  }

  lemma HeardNone(before: Gathered, m: Memory)
    ensures Heard(before, m, m.scopes.Keys, before)
  {
  }

  lemma HeardNext(before: Gathered, m: Memory, rest: set<Source>, g: Gathered, s: Source)
    requires Heard(before, m, rest, g) && rest <= m.scopes.Keys && s in rest
    ensures Heard(before, m, rest - {s}, if s in before.scopes then g else Unconfirm(g, s, m.scopes[s]))
  {
    var more := rest - {s};
    var h := if s in before.scopes then g else Unconfirm(g, s, m.scopes[s]);
    forall d | d in h.unconfirmed && d !in before.unconfirmed
      ensures exists x :: x in m.scopes && x !in before.scopes && x !in more && d in ScopeOf(m, x)
    {
      if d in g.unconfirmed {
        var x :| x in m.scopes && x !in before.scopes && x !in rest && d in ScopeOf(m, x);
        assert x !in more;
      } else {
        assert s !in more && d in ScopeOf(m, s);
      }
    }
  }

  lemma HeardAll(before: Gathered, m: Memory, g: Gathered)
    requires Heard(before, m, {}, g)
    ensures forall names :: g == AfterDir(before, m, names, Unreadable)
  {
    var u := before.unconfirmed + (set s, d | s in Unheard(before, m) && d in ScopeOf(m, s) :: d);
    var c := map s | s in before.scopes.Keys + Unheard(before, m) :: if s in before.scopes then before.scopes[s] else ScopeOf(m, s);
    assert g.unconfirmed == u;
    assert g.scopes == c;
  }

  method AllEmpty(g: Gathered) returns (empty: bool)
    ensures empty <==> NothingAtAll(g)
  {
    empty := g.host == map[];
    if !empty { return; }
    var rest := g.device.Keys;
    while rest != {}
      invariant rest <= g.device.Keys && forall d :: d in g.device && d !in rest ==> g.device[d] == map[]
      decreases |rest|
    {
      var d :| d in rest;
      if g.device[d] != map[] { return false; }
      rest := rest - {d};
    }
  }

  /** Every device but those in rest has been sent, or left out and, if it was not already, logged. */
  ghost predicate Sorted(g: Gathered, rest: set<string>, first: map<string, Facts>, before: set<string>,
                         out: map<string, Facts>, logged: set<string>, warned: set<string>) {
    && (forall d :: d in out <==> d in first || (d in g.device && d !in rest && !Omitted(g, d)))
    && (forall d :: d in out ==> out[d] == if d in g.device && d !in rest && !Omitted(g, d) then g.device[d] else first[d])
    && (forall d :: d in logged <==> d in g.device && d !in rest && Omitted(g, d) && d !in before)
    && (forall d :: d in warned <==> if d in g.device && d !in rest then Omitted(g, d) else d in before)
  }

  lemma SortedNone(g: Gathered, first: map<string, Facts>, before: set<string>)
    ensures Sorted(g, g.device.Keys, first, before, first, {}, before)
  {
  }

  lemma SortedNext(g: Gathered, rest: set<string>, first: map<string, Facts>, before: set<string>,
                   out: map<string, Facts>, logged: set<string>, warned: set<string>, d: string)
    requires Sorted(g, rest, first, before, out, logged, warned) && rest <= g.device.Keys && d in rest
    ensures !Omitted(g, d) ==> Sorted(g, rest - {d}, first, before, out[d := g.device[d]], logged, warned - {d})
    ensures Omitted(g, d) && d in warned ==> Sorted(g, rest - {d}, first, before, out, logged, warned)
    ensures Omitted(g, d) && d !in warned ==> Sorted(g, rest - {d}, first, before, out, logged + {d}, warned + {d})
  {
    hide Omitted;
  }

  lemma SortedAll(g: Gathered, first: map<string, Facts>, before: set<string>,
                  out: map<string, Facts>, logged: set<string>, warned: set<string>)
    requires Sorted(g, {}, first, before, out, logged, warned) && !NothingAtAll(g)
    requires first == if g.host != map[] then map["" := g.host] else map[]
    ensures Payload(g) == Some(out)
    ensures logged == set d | d in g.device && Omitted(g, d) && d !in before
    ensures warned == (before - g.device.Keys) + (set d | d in g.device && Omitted(g, d))
  {
    hide Omitted, NothingAtAll;
    var sent := map d | d in g.device && !Omitted(g, d) :: g.device[d];
    assert out == first + sent;
  }

  lemma MergeKeeps(g: Gathered, names: set<string>, s: Source, facts: Facts)
    ensures Merge(g, names, s, facts).device.Keys == g.device.Keys
  {
  }

  lemma GatherCoversBefore(m: Memory, names: set<string>, p: Pass)
    ensures BeforeDir(m, names, p).device.Keys == names
  {
    hide Labels, HostFacts, NamedBy;
  }

  /** out holds the entries of over whose keys are done, over the entries of under. */
  ghost predicate Overlaid(out: Facts, under: Facts, over: Facts, done: set<string>) {
    && (forall k :: k in out <==> k in under || (k in over && k in done))
    && (forall k :: k in out ==> out[k] == if k in over && k in done then over[k] else under[k])
  }

  lemma OverlaidNext(out: Facts, under: Facts, over: Facts, done: set<string>, k: string)
    requires Overlaid(out, under, over, done) && k in over
    ensures Overlaid(out[k := over[k]], under, over, done + {k})
  {
  }

  lemma OverlaidAll(out: Facts, under: Facts, over: Facts)
    requires Overlaid(out, under, over, over.Keys)
    ensures out == under + over
  {
  }

  /** Go's for k, v := range over { out[k] = v } */
  method Overlay(under: Facts, over: Facts) returns (out: Facts)
    ensures out == under + over
  {
    hide Overlaid;
    out := under;
    OverlaidNone(under, over);
    var rest := over.Keys;
    assert over.Keys - rest == {};
    while rest != {}
      invariant rest <= over.Keys && Overlaid(out, under, over, over.Keys - rest)
      decreases |rest|
    {
      var k :| k in rest;
      OverlaidNext(out, under, over, over.Keys - rest, k);
      out := out[k := over[k]];
      assert over.Keys - (rest - {k}) == (over.Keys - rest) + {k};
      rest := rest - {k};
    }
    assert over.Keys - rest == over.Keys;
    OverlaidAll(out, under, over);
  }

  lemma OverlaidNone(under: Facts, over: Facts)
    ensures Overlaid(under, under, over, {})
  {
  }

  /** mergeLabelMaps: the device's own value wins. */
  method MergeLabelMaps(host: Facts, device: Facts) returns (out: Facts)
    ensures out == host + device
  {
    out := Overlay(map[], host);
    out := Overlay(out, device);
  }

  /** applyDeviceFacts: labels of both origins and usage sheets, device by device. docs: this host's sheets. */
  method ApplyDeviceFacts(detected: map<string, Facts>, declared: map<string, Facts>, docs: map<string, string>,
                          host: string, names: seq<string>, labels: Option<map<string, Facts>>,
                          declaredLabels: Option<map<string, Facts>>, sheet: Option<string>, sheets: map<string, string>)
    returns (found: map<string, Facts>, told: map<string, Facts>, filed: map<string, string>)
    ensures found == Applied(detected, host, Ordering.Elements(names), labels)
    ensures told == Applied(declared, host, Ordering.Elements(names), declaredLabels)
    ensures filed == Filed(docs, host, Ordering.Elements(names), sheet, sheets)
  {
    hide Applied, Filed, DeviceId;
    found, told, filed := detected, declared, docs;
    if sheet.Some? { filed := filed["" := sheet.value]; }
    AppliedNone(detected, host, labels);
    AppliedNone(declared, host, declaredLabels);
    FiledNone(docs, host, sheet, sheets);
    for i := 0 to |names|
      invariant found == Applied(detected, host, Ordering.Elements(names[..i]), labels)
      invariant told == Applied(declared, host, Ordering.Elements(names[..i]), declaredLabels)
      invariant filed == Filed(docs, host, Ordering.Elements(names[..i]), sheet, sheets)
    {
      ghost var before := Ordering.Elements(names[..i]);
      assert names[..i + 1] == names[..i] + [names[i]];
      assert Ordering.Elements(names[..i + 1]) == before + {names[i]};
      AppliedNext(detected, host, before, labels, names[i]);
      AppliedNext(declared, host, before, declaredLabels, names[i]);
      FiledNext(docs, host, before, sheet, sheets, names[i]);
      found := ReplaceFrom(found, host, names[i], labels);
      told := ReplaceFrom(told, host, names[i], declaredLabels);
      if names[i] in sheets { filed := filed[DeviceId(host, names[i]) := sheets[names[i]]]; }
    }
    assert names[..|names|] == names;
  }

  /** A device the payload names has its labels of that origin replaced. */
  method ReplaceFrom(stored: map<string, Facts>, host: string, name: string, payload: Option<map<string, Facts>>)
    returns (out: map<string, Facts>)
    ensures out == if payload.Some? && name in payload.value
                   then stored[DeviceId(host, name) := Common(payload.value) + payload.value[name]] else stored
  {
    out := stored;
    if payload.None? { return; }
    var common := if "" in payload.value then payload.value[""] else map[];
    if name in payload.value {
      var merged := MergeLabelMaps(common, payload.value[name]);
      out := out[DeviceId(host, name) := merged];
    }
  }

  lemma FiledNone(docs: map<string, string>, host: string, sheet: Option<string>, sheets: map<string, string>)
    ensures Filed(docs, host, Ordering.Elements([]), sheet, sheets) == if sheet.Some? then docs["" := sheet.value] else docs
  {
  }

  lemma SheetsNext(host: string, names: set<string>, sheets: map<string, string>, n: string)
    ensures SentSheets(host, names + {n}, sheets) ==
            if n in sheets then SentSheets(host, names, sheets)[DeviceId(host, n) := sheets[n]] else SentSheets(host, names, sheets)
  {
    forall x ensures NameIn(host, DeviceId(host, x)) == x { NameOfId(host, x); }
    hide DeviceId, NameIn;
    assert SentIds(host, names + {n}, sheets) ==
           if n in sheets then SentIds(host, names, sheets) + {DeviceId(host, n)} else SentIds(host, names, sheets);
    hide SentIds;
  }

  lemma FiledNext(docs: map<string, string>, host: string, names: set<string>, sheet: Option<string>, sheets: map<string, string>, n: string)
    ensures Filed(docs, host, names + {n}, sheet, sheets) ==
            if n in sheets then Filed(docs, host, names, sheet, sheets)[DeviceId(host, n) := sheets[n]]
            else Filed(docs, host, names, sheet, sheets)
  {
    hide SentSheets, DeviceId;
    SheetsNext(host, names, sheets, n);
  }

  lemma AppliedNone(stored: map<string, Facts>, host: string, payload: Option<map<string, Facts>>)
    ensures Applied(stored, host, Ordering.Elements([]), payload) == stored
  {
  }

  lemma SentNext(host: string, names: set<string>, p: map<string, Facts>, n: string)
    ensures Sent(host, names + {n}, p) ==
            if n in p then Sent(host, names, p)[DeviceId(host, n) := Common(p) + p[n]] else Sent(host, names, p)
  {
    forall x ensures NameIn(host, DeviceId(host, x)) == x { NameOfId(host, x); }
    hide DeviceId, NameIn, Common;
    assert SentIds(host, names + {n}, p) ==
           if n in p then SentIds(host, names, p) + {DeviceId(host, n)} else SentIds(host, names, p);
    hide SentIds;
  }

  lemma AppliedNext(stored: map<string, Facts>, host: string, names: set<string>, payload: Option<map<string, Facts>>, n: string)
    ensures Applied(stored, host, names + {n}, payload) ==
            if payload.Some? && n in payload.value
            then Applied(stored, host, names, payload)[DeviceId(host, n) := Common(payload.value) + payload.value[n]]
            else Applied(stored, host, names, payload)
  {
    hide Sent, Common, DeviceId;
    if payload.Some? { SentNext(host, names, payload.value, n); }
  }
}

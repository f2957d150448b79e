/** The VM inventory: one pass over the enrichment entries fills seven maps, a second one
    assembles the rows. Together they are a join of each basic row with the entries of
    its name or id. */
module Inventory {
  import opened Clock

  /** A Go slice: nil, or some elements. */
  datatype Slice<T> = Nil | Of(elems: seq<T>)

  datatype NicIn = NicIn(id: string, name: string, networkId: string, mac: string, connected: bool, ips: string, vlan: int)

  datatype Nic = Nic(id: string, name: string, networkId: string, mac: string, primary: bool, connected: bool,
                     ips: string, vlan: int)

  datatype Vhd = Vhd(diskId: string, path: string, controller: string, format: string, kind: string, sizeGb: real,
                     usedBytes: int)

  datatype Snapshot = Snapshot(id: string, name: string, created: string, kind: string, parentId: Option<string>,
                               parentName: Option<string>)

  /** One entry of the enrichment output. */
  datatype Info = Info(vmName: string, vmId: string, nics: seq<NicIn>, vhds: seq<Vhd>, dvd: Option<string>, nested: bool,
                       snapshots: seq<Snapshot>, secureBoot: bool, template: string, ha: bool)

  datatype Firmware = Firmware(vmName: string, secureBoot: bool, template: string)

  /** The fields of a basic row that are only copied. */
  datatype Facts = Facts(powerState: string, firmware: string, cpus: int, memoryMb: int, memoryMin: int, memoryMax: int,
                         memoryDynamic: bool, state: string, notes: string, uptimeSeconds: int, uptime: string,
                         cpuPercent: int, memoryConsumedMb: int, autoStart: string, autoStartDelay: int,
                         autoStop: string, path: string, created: string, metrics: bool)

  datatype Basic = Basic(id: string, name: string, facts: Facts, guestOs: Option<string>)

  datatype VmInfo = VmInfo(id: string, name: string, facts: Facts, nics: Slice<Nic>, vhds: Slice<Vhd>, dvd: Option<string>,
                           snapshots: Slice<Snapshot>, ha: bool, nested: bool, secureBoot: bool, template: string,
                           guestOs: Option<string>)

  /** What decoding made of the script's output. */
  datatype Decoded = Blank | Array(infos: seq<Info>) | Single(info: Info) | Garbled

  // ---- the direct join -----------------------------------------------------------

  predicate Named(e: Info, name: string) {
    e.vmName == name
  }

  function ByName(name: string): Info -> bool {
    (e: Info) => Named(e, name)
  }

  function ById(id: string): Info -> bool {
    (e: Info) => e.vmId == id
  }

  /** The entries a predicate selects, in order. */
  function Select(infos: seq<Info>, p: Info -> bool): seq<Info> {
    if infos == [] then [] else (if p(infos[0]) then [infos[0]] else []) + Select(infos[1..], p)
  }

  /** The lists of all entries, one after the other. */
  function Flat<T>(infos: seq<Info>, f: Info -> seq<T>): seq<T> {
    if infos == [] then [] else f(infos[0]) + Flat(infos[1..], f)
  }

  function LastOf(infos: seq<Info>): Option<Info> {
    if infos == [] then None else Some(infos[|infos| - 1])
  }

  function Primary(n: NicIn): Nic {
    Nic(n.id, n.name, n.networkId, n.mac, false, n.connected, n.ips, n.vlan)
  }

  function Nics(e: Info): seq<Nic> {
    seq(|e.nics|, i requires 0 <= i < |e.nics| => Primary(e.nics[i]))
  }

  function OfName(infos: seq<Info>, name: string): seq<Info> {
    Select(infos, ByName(name))
  }

  predicate IsSpace(c: char) {
    c in {'\t', '\n', '\U{B}', '\U{C}', '\r', ' ', '\U{85}', '\U{A0}', '\U{1680}', '\U{2028}', '\U{2029}', '\U{202F}',
          '\U{205F}', '\U{3000}'}
    || '\U{2000}' <= c <= '\U{200A}'
  }

  function TrimSpace(s: string): string {
    if s == [] then []
    else if IsSpace(s[0]) then TrimSpace(s[1..])
    else if IsSpace(s[|s| - 1]) then TrimSpace(s[..|s| - 1])
    else s
  }

  predicate AllSpace(s: string) {
    forall i :: 0 <= i < |s| ==> IsSpace(s[i])
  }

  lemma {:induction false} TrimmedAway(s: string)
    ensures TrimSpace(s) == "" <==> AllSpace(s)
  {
    if s != [] {
      if IsSpace(s[0]) {
        TrimmedAway(s[1..]);
        assert forall i :: 0 < i < |s| ==> s[i] == s[1..][i - 1];
      } else {
        if IsSpace(s[|s| - 1]) {
          TrimmedAway(s[..|s| - 1]);
          assert s[..|s| - 1][0] == s[0];
        }
      }
    }
  }

  predicate HasDisc(e: Info) {
    e.dvd.Some?
  }

  function Disc(infos: seq<Info>, name: string): Option<string> {
    var last := LastOf(Select(OfName(infos, name), HasDisc));
    if last.Some? then last.value.dvd else None
  }

  function Node(nodes: seq<Info>, id: string): Option<Info> {
    LastOf(Select(nodes, ById(id)))
  }

  function Vhds(e: Info): seq<Vhd> {
    e.vhds
  }

  function Snapshots(e: Info): seq<Snapshot> {
    e.snapshots
  }

  /** The row that belongs to a basic row: everything comes from the entries of its name,
      except HA, which comes from those of its id, seen as a cluster node. */
  function Join(b: Basic, infos: seq<Info>, nodes: seq<Info>): VmInfo {
    var same := OfName(infos, b.name);
    var last, node := LastOf(same), Node(nodes, b.id);
    VmInfo(b.id, b.name, b.facts,
           Of(Flat(same, Nics)), Of(Flat(same, Vhds)), Disc(infos, b.name), Of(Flat(same, Snapshots)),
           node.Some? && node.value.ha,
           last.Some? && last.value.nested,
           last.Some? && last.value.secureBoot,
           if last.Some? then last.value.template else "",
           if b.guestOs.Some? && AllSpace(b.guestOs.value) then None else b.guestOs)
  }

  // ---- what selecting and flattening mean ------------------------------------------

  lemma Associate<T>(x: seq<T>, y: seq<T>, z: seq<T>)
    ensures x + (y + z) == (x + y) + z
  {
  }

  lemma {:induction false} SelectAppend(a: seq<Info>, b: seq<Info>, p: Info -> bool)
    ensures Select(a + b, p) == Select(a, p) + Select(b, p)
  {
    if a == [] {
      assert a + b == b;
    } else {
      SelectAppend(a[1..], b, p);
      assert (a + b)[1..] == a[1..] + b && (a + b)[0] == a[0];
      Associate(if p(a[0]) then [a[0]] else [], Select(a[1..], p), Select(b, p));
    }
  }

  lemma {:induction false} FlatAppend<T>(a: seq<Info>, b: seq<Info>, f: Info -> seq<T>)
    ensures Flat(a + b, f) == Flat(a, f) + Flat(b, f)
  {
    if a == [] {
      assert a + b == b;
    } else {
      FlatAppend(a[1..], b, f);
      assert (a + b)[1..] == a[1..] + b && (a + b)[0] == a[0];
      Associate(f(a[0]), Flat(a[1..], f), Flat(b, f));
    }
  }

  lemma SelectOne(infos: seq<Info>, e: Info, p: Info -> bool)
    ensures Select(infos + [e], p) == if p(e) then Select(infos, p) + [e] else Select(infos, p)
  {
    SelectAppend(infos, [e], p);
    assert Select([e][1..], p) == [];
  }

  lemma FlatOne<T>(infos: seq<Info>, e: Info, f: Info -> seq<T>)
    ensures Flat(infos + [e], f) == Flat(infos, f) + f(e)
  {
    FlatAppend(infos, [e], f);
    assert Flat([e][1..], f) == [];
  }

  predicate LastAt(infos: seq<Info>, p: Info -> bool, i: nat) {
    i < |infos| && p(infos[i]) && forall k :: i < k < |infos| ==> !p(infos[k])
  }

  predicate NoneAt(infos: seq<Info>, p: Info -> bool) {
    forall k :: 0 <= k < |infos| ==> !p(infos[k])
  }

  lemma NoneSelected(infos: seq<Info>, e: Info, p: Info -> bool)
    ensures NoneAt(infos + [e], p) <==> NoneAt(infos, p) && !p(e)
  {
    var all := infos + [e];
    assert all[|infos|] == e && forall k :: 0 <= k < |infos| ==> all[k] == infos[k];
  }

  /** The last selected entry is the one no later selected entry follows. */
  lemma {:induction false} LastSelected(infos: seq<Info>, p: Info -> bool)
    ensures LastOf(Select(infos, p)).None? <==> NoneAt(infos, p)
    ensures forall i: nat :: LastAt(infos, p, i) ==> LastOf(Select(infos, p)) == Some(infos[i])
  {
    if infos != [] {
      var n := |infos| - 1;
      var front := infos[..n];
      LastSelected(front, p);
      assert infos == front + [infos[n]];
      SelectOne(front, infos[n], p);
      NoneSelected(front, infos[n], p);
      forall i: nat | LastAt(infos, p, i) ensures LastOf(Select(infos, p)) == Some(infos[i]) {
        if i < n { LastEarlier(front, infos[n], p, i); }
      }
    }
  }

  lemma LastEarlier(front: seq<Info>, e: Info, p: Info -> bool, i: nat)
    requires LastAt(front + [e], p, i) && i < |front|
    ensures LastAt(front, p, i) && !p(e)
  {
    var all := front + [e];
    assert all[|front|] == e && forall k :: 0 <= k < |front| ==> all[k] == front[k];
  }

  /** The joined lists of a name split wherever the input is split. */
  lemma JoinSplits<T>(a: seq<Info>, b: seq<Info>, name: string, f: Info -> seq<T>)
    ensures Flat(OfName(a + b, name), f) == Flat(OfName(a, name), f) + Flat(OfName(b, name), f)
  {
    SelectAppend(a, b, ByName(name));
    FlatAppend(OfName(a, name), OfName(b, name), f);
  }

  /** The entries HA is looked up in. */
  function Nodes(infos: seq<Info>, clustered: bool): seq<Info> {
    if clustered then infos else []
  }

  /** An entry of another name can touch nothing but HA, wherever it stands. */
  lemma OthersTouchOnlyHa(b: Basic, before: seq<Info>, e: Info, after: seq<Info>, clustered: bool)
    requires e.vmName != b.name
    ensures var with, without := before + [e] + after, before + after;
            var ha := Join(b, with, Nodes(with, clustered)).ha;
            Join(b, with, Nodes(with, clustered)) == Join(b, without, Nodes(without, clustered)).(ha := ha)
  {
    SelectOne(before, e, ByName(b.name));
    SelectAppend(before + [e], after, ByName(b.name));
    SelectAppend(before, after, ByName(b.name));
  }

  /** An entry of another name and another id changes nothing in a row, wherever it
      stands. */
  lemma OthersDoNotMatter(b: Basic, before: seq<Info>, e: Info, after: seq<Info>, clustered: bool)
    requires e.vmName != b.name && e.vmId != b.id
    ensures var with, without := before + [e] + after, before + after;
            Join(b, with, Nodes(with, clustered)) == Join(b, without, Nodes(without, clustered))
  {
    OthersTouchOnlyHa(b, before, e, after, clustered);
    if clustered {
      SelectOne(before, e, ById(b.id));
      SelectAppend(before + [e], after, ById(b.id));
      SelectAppend(before, after, ById(b.id));
    }
  }

  /** The same name is not needed: on a cluster node HA comes from the last entry of the
      id, whatever its name; off one, from none. */
  lemma HaIgnoresNames(b: Basic, before: seq<Info>, e: Info, after: seq<Info>, clustered: bool)
    requires e.vmId == b.id && NoneAt(after, ById(b.id))
    ensures var all := before + [e] + after; Join(b, all, Nodes(all, clustered)).ha == (clustered && e.ha)
  {
    if clustered {
      SelectOne(before, e, ById(b.id));
      SelectAppend(before + [e], after, ById(b.id));
      NothingSelected(after, ById(b.id));
    }
  }

  lemma {:induction false} NothingSelected(infos: seq<Info>, p: Info -> bool)
    requires NoneAt(infos, p)
    ensures Select(infos, p) == []
  {
    if infos == [] {
    } else {
      assert !p(infos[0]) && forall k :: 0 <= k < |infos[1..]| ==> infos[1..][k] == infos[k + 1];
      NothingSelected(infos[1..], p);
    }
  }

  // ---- what a row reads, entry by entry ------------------------------------------------

  /** The last entry of a name; of a name, with a DVD; of an id. */
  predicate LastNamed(infos: seq<Info>, name: string, i: nat) {
    i < |infos| && infos[i].vmName == name && forall k :: i < k < |infos| ==> infos[k].vmName != name
  }

  predicate LastWithDvd(infos: seq<Info>, name: string, i: nat) {
    && i < |infos| && infos[i].vmName == name && infos[i].dvd.Some?
    && forall k :: i < k < |infos| ==> infos[k].vmName != name || infos[k].dvd.None?
  }

  predicate LastOfId(infos: seq<Info>, id: string, i: nat) {
    i < |infos| && infos[i].vmId == id && forall k :: i < k < |infos| ==> infos[k].vmId != id
  }

  /** Element j of the list of entry i, an entry of the name. */
  predicate Source<A>(infos: seq<Info>, name: string, f: Info -> seq<A>, i: nat, j: nat) {
    i < |infos| && infos[i].vmName == name && j < |f(infos[i])|
  }

  predicate Rising(at: seq<(nat, nat)>) {
    forall k, l :: 0 <= k < l < |at| ==> at[k].0 < at[l].0 || (at[k].0 == at[l].0 && at[k].1 < at[l].1)
  }

  /** The list holds the elements of the lists of all entries of the name, each once, in
      order: `at` says where each comes from. */
  ghost predicate Gathered<A, T>(list: seq<T>, infos: seq<Info>, name: string, f: Info -> seq<A>, same: (A, T) -> bool,
                                 at: seq<(nat, nat)>) {
    && |at| == |list| && Rising(at)
    && (forall k :: 0 <= k < |at| ==> Source(infos, name, f, at[k].0, at[k].1) && same(f(infos[at[k].0])[at[k].1], list[k]))
    && (forall i: nat, j: nat :: Source(infos, name, f, i, j) ==> (i, j) in at)
  }

  ghost predicate Gathers<A, T>(list: seq<T>, infos: seq<Info>, name: string, f: Info -> seq<A>, same: (A, T) -> bool) {
    exists at :: Gathered(list, infos, name, f, same, at)
  }

  function NicsIn(e: Info): seq<NicIn> {
    e.nics
  }

  /** Field by field; which is the primary one is not known. */
  predicate SameNic(n: NicIn, m: Nic) {
    && m.id == n.id && m.name == n.name && m.networkId == n.networkId && m.mac == n.mac && m.connected == n.connected
    && m.ips == n.ips && m.vlan == n.vlan && !m.primary
  }

  predicate SameVhd(a: Vhd, b: Vhd) {
    a == b
  }

  predicate SameSnapshot(a: Snapshot, b: Snapshot) {
    a == b
  }

  /** Every field of a row, from the basic row and the entries. */
  ghost predicate Reads(vm: VmInfo, b: Basic, infos: seq<Info>, clustered: bool) {
    && vm.id == b.id && vm.name == b.name && vm.facts == b.facts
    && (if b.guestOs.Some? && AllSpace(b.guestOs.value) then vm.guestOs.None? else vm.guestOs == b.guestOs)
    && (forall i: nat :: LastNamed(infos, b.name, i) ==>
          vm.nested == infos[i].nested && vm.secureBoot == infos[i].secureBoot && vm.template == infos[i].template)
    && ((forall i :: 0 <= i < |infos| ==> infos[i].vmName != b.name) ==> !vm.nested && !vm.secureBoot && vm.template == "")
    && (forall i: nat :: LastWithDvd(infos, b.name, i) ==> vm.dvd == infos[i].dvd)
    && ((forall i :: 0 <= i < |infos| ==> infos[i].vmName != b.name || infos[i].dvd.None?) ==> vm.dvd.None?)
    && (forall i: nat :: LastOfId(infos, b.id, i) ==> vm.ha == (clustered && infos[i].ha))
    && ((forall i :: 0 <= i < |infos| ==> infos[i].vmId != b.id) ==> !vm.ha)
    && vm.nics.Of? && Gathers(vm.nics.elems, infos, b.name, NicsIn, SameNic)
    && vm.vhds.Of? && Gathers(vm.vhds.elems, infos, b.name, Vhds, SameVhd)
    && vm.snapshots.Of? && Gathers(vm.snapshots.elems, infos, b.name, Snapshots, SameSnapshot)
  }

  ghost predicate Alike<A, T>(f: Info -> seq<A>, g: Info -> seq<T>, same: (A, T) -> bool) {
    forall e: Info :: |g(e)| == |f(e)| && forall j :: 0 <= j < |f(e)| ==> same(f(e)[j], g(e)[j])
  }

  /** The places of m elements of entry n. */
  function Places(n: nat, m: nat): seq<(nat, nat)> {
    seq(m, j requires 0 <= j < m => (n, j))
  }

  lemma RisingOn(at: seq<(nat, nat)>, n: nat, m: nat)
    requires Rising(at) && forall k :: 0 <= k < |at| ==> at[k].0 < n
    ensures Rising(at + Places(n, m))
  {
  }

  lemma SourceOn<A>(front: seq<Info>, e: Info, name: string, f: Info -> seq<A>, i: nat, j: nat)
    ensures Source(front + [e], name, f, i, j) <==>
              Source(front, name, f, i, j) || (i == |front| && e.vmName == name && j < |f(e)|)
  {
    assert i < |front| ==> (front + [e])[i] == front[i];
  }

  lemma GatherSkips<A, T>(front: seq<Info>, e: Info, name: string, f: Info -> seq<A>, same: (A, T) -> bool,
                          list: seq<T>, at: seq<(nat, nat)>)
    requires Gathered(list, front, name, f, same, at) && e.vmName != name
    ensures Gathered(list, front + [e], name, f, same, at)
  {
    forall i: nat, j: nat ensures Source(front + [e], name, f, i, j) <==> Source(front, name, f, i, j) {
      SourceOn(front, e, name, f, i, j);
    }
  }

  lemma GatherAdds<A, T>(front: seq<Info>, e: Info, name: string, f: Info -> seq<A>, g: Info -> seq<T>, same: (A, T) -> bool,
                         list: seq<T>, at: seq<(nat, nat)>)
    requires Alike(f, g, same) && Gathered(list, front, name, f, same, at) && e.vmName == name
    ensures Gathered(list + g(e), front + [e], name, f, same, at + Places(|front|, |f(e)|))
  {
    var n, all, more := |front|, front + [e], Places(|front|, |f(e)|);
    RisingOn(at, n, |f(e)|);
    forall i: nat, j: nat | Source(all, name, f, i, j) ensures (i, j) in at + more {
      SourceOn(front, e, name, f, i, j);
      if i == n { assert more[j] == (n, j); }
    }
    forall k | 0 <= k < |at + more|
      ensures var (i, j) := (at + more)[k]; Source(all, name, f, i, j) && same(f(all[i])[j], (list + g(e))[k])
    {
      var (i, j) := (at + more)[k];
      SourceOn(front, e, name, f, i, j);
      if k < |at| { assert Source(front, name, f, at[k].0, at[k].1); }
    }
  }

  lemma {:induction false} Gather<A, T>(infos: seq<Info>, name: string, f: Info -> seq<A>, g: Info -> seq<T>, same: (A, T) -> bool)
    returns (at: seq<(nat, nat)>)
    requires Alike(f, g, same)
    ensures Gathered(Flat(OfName(infos, name), g), infos, name, f, same, at)
  {
    at := [];
    if infos != [] {
      var n := |infos| - 1;
      var front, e := infos[..n], infos[n];
      var before := Gather(front, name, f, g, same);
      assert infos == front + [e];
      SelectOne(front, e, ByName(name));
      FlatOne(OfName(front, name), e, g);
      if e.vmName == name {
        GatherAdds(front, e, name, f, g, same, Flat(OfName(front, name), g), before);
        at := before + Places(n, |f(e)|);
      } else {
        GatherSkips(front, e, name, f, same, Flat(OfName(front, name), g), before);
        at := before;
      }
    }
  }

  lemma {:induction false} SelectTwice(infos: seq<Info>, name: string)
    ensures Select(OfName(infos, name), HasDisc) == Select(infos, WithDvd(name))
  {
    if infos != [] {
      SelectTwice(infos[1..], name);
      SelectAppend(if infos[0].vmName == name then [infos[0]] else [], OfName(infos[1..], name), HasDisc);
    }
  }

  function WithDvd(name: string): Info -> bool {
    (e: Info) => e.vmName == name && e.dvd.Some?
  }

  /** The join reads every field of a row from where it belongs. */
  lemma JoinReads(b: Basic, infos: seq<Info>, clustered: bool)
    ensures Reads(Join(b, infos, Nodes(infos, clustered)), b, infos, clustered)
  {
    var vm := Join(b, infos, Nodes(infos, clustered));
    LastSelected(infos, ByName(b.name));
    SelectTwice(infos, b.name);
    LastSelected(infos, WithDvd(b.name));
    LastSelected(infos, ById(b.id));
    forall i: nat | LastNamed(infos, b.name, i) ensures LastAt(infos, ByName(b.name), i) {}
    forall i: nat | LastWithDvd(infos, b.name, i) ensures LastAt(infos, WithDvd(b.name), i) {}
    forall i: nat | LastOfId(infos, b.id, i) ensures LastAt(infos, ById(b.id), i) {}
    JoinGathers(b, infos, clustered);
  }

  lemma JoinGathers(b: Basic, infos: seq<Info>, clustered: bool)
    ensures var vm := Join(b, infos, Nodes(infos, clustered));
            && vm.nics.Of? && Gathers(vm.nics.elems, infos, b.name, NicsIn, SameNic)
            && vm.vhds.Of? && Gathers(vm.vhds.elems, infos, b.name, Vhds, SameVhd)
            && vm.snapshots.Of? && Gathers(vm.snapshots.elems, infos, b.name, Snapshots, SameSnapshot)
  {
    var n := Gather(infos, b.name, NicsIn, Nics, SameNic);
    var v := Gather(infos, b.name, Vhds, Vhds, SameVhd);
    var s := Gather(infos, b.name, Snapshots, Snapshots, SameSnapshot);
  }

  // ---- the code ----------------------------------------------------------------------

  function Get<T>(m: map<string, seq<T>>, key: string): seq<T> {
    if key in m then m[key] else []
  }

  function Look<T>(m: map<string, T>, key: string): Option<T> {
    if key in m then Some(m[key]) else None
  }

  function Sliced<T>(m: map<string, seq<T>>, key: string): Slice<T> {
    if key in m then Of(m[key]) else Nil
  }

  function Filled<T>(s: Slice<T>): Slice<T> {
    if s.Nil? then Of([]) else s
  }

  function Appended<T>(m: map<string, seq<T>>, key: string, xs: seq<T>): map<string, seq<T>> {
    if xs == [] then m else m[key := Get(m, key) + xs]
  }

  lemma AppendedOne<T>(m: map<string, seq<T>>, key: string, xs: seq<T>, x: T)
    ensures Appended(m, key, xs)[key := Get(Appended(m, key, xs), key) + [x]] == Appended(m, key, xs + [x])
  {
    assert Get(m, key) + xs + [x] == Get(m, key) + (xs + [x]);
    if xs == [] {
      assert xs + [x] == [x];
    } else {
      var ys := Get(m, key) + xs;
      assert m[key := ys][key := ys + [x]] == m[key := ys + [x]];
    }
  }

  class Maps {
    var nics: map<string, seq<Nic>>
    var vhds: map<string, seq<Vhd>>
    var dvd: map<string, Option<string>>
    var nested: map<string, bool>
    var snapshots: map<string, seq<Snapshot>>
    var firmware: map<string, Firmware>
    var ha: map<string, bool>
    ghost var seen: seq<Info>     // every entry absorbed
    ghost var nodes: seq<Info>    // those absorbed on a cluster node

    ghost predicate Valid()
      reads this
    {
      && ListOk(nics, seen, Nics) && ListOk(vhds, seen, Vhds) && ListOk(snapshots, seen, Snapshots)
      && DvdOk(dvd, seen) && NestedOk(nested, seen) && FirmwareOk(firmware, seen) && HaOk(ha, nodes)
    }

    constructor ()
      ensures Valid() && seen == [] && nodes == []
    {
      nics, vhds, dvd, nested, snapshots, firmware, ha := map[], map[], map[], map[], map[], map[], map[];
      seen, nodes := [], [];
    }

    method AddNics(e: Info)
      requires ListOk(nics, seen, Nics)
      modifies this`nics
      ensures ListOk(nics, seen + [e], Nics)
    {
      ListGrows(nics, seen, e, Nics);
      for k := 0 to |e.nics|
        invariant nics == Appended(old(nics), e.vmName, Nics(e)[..k])
      {
        AppendedOne(old(nics), e.vmName, Nics(e)[..k], Nics(e)[k]);
        assert Nics(e)[..k + 1] == Nics(e)[..k] + [Nics(e)[k]];
        nics := nics[e.vmName := Get(nics, e.vmName) + [Primary(e.nics[k])]];
      }
      assert Nics(e)[..|e.nics|] == Nics(e);
    }

    method AddVhds(e: Info)
      requires ListOk(vhds, seen, Vhds)
      modifies this`vhds
      ensures ListOk(vhds, seen + [e], Vhds)
    {
      ListGrows(vhds, seen, e, Vhds);
      for k := 0 to |e.vhds|
        invariant vhds == Appended(old(vhds), e.vmName, e.vhds[..k])
      {
        AppendedOne(old(vhds), e.vmName, e.vhds[..k], e.vhds[k]);
        assert e.vhds[..k + 1] == e.vhds[..k] + [e.vhds[k]];
        vhds := vhds[e.vmName := Get(vhds, e.vmName) + [e.vhds[k]]];
      }
      assert e.vhds[..|e.vhds|] == e.vhds;
    }

    method AddSnapshots(e: Info)
      requires ListOk(snapshots, seen, Snapshots)
      modifies this`snapshots
      ensures ListOk(snapshots, seen + [e], Snapshots)
    {
      ListGrows(snapshots, seen, e, Snapshots);
      for k := 0 to |e.snapshots|
        invariant snapshots == Appended(old(snapshots), e.vmName, e.snapshots[..k])
      {
        AppendedOne(old(snapshots), e.vmName, e.snapshots[..k], e.snapshots[k]);
        assert e.snapshots[..k + 1] == e.snapshots[..k] + [e.snapshots[k]];
        snapshots := snapshots[e.vmName := Get(snapshots, e.vmName) + [e.snapshots[k]]];
      }
      assert e.snapshots[..|e.snapshots|] == e.snapshots;
    }

    method Overwrite(e: Info)
      requires DvdOk(dvd, seen) && NestedOk(nested, seen) && FirmwareOk(firmware, seen)
      modifies this`dvd, this`nested, this`firmware
      ensures DvdOk(dvd, seen + [e]) && NestedOk(nested, seen + [e]) && FirmwareOk(firmware, seen + [e])
    {
      OverwritesGrow(dvd, nested, firmware, seen, e);
      if e.dvd.Some? { dvd := dvd[e.vmName := e.dvd]; }
      nested := nested[e.vmName := e.nested];
      firmware := firmware[e.vmName := Firmware(e.vmName, e.secureBoot, e.template)];
    }

    method SetHa(e: Info)
      requires HaOk(ha, nodes)
      modifies this`ha
      ensures HaOk(ha, nodes + [e])
    {
      HaGrows(ha, nodes, e);
      ha := ha[e.vmId := e.ha];
    }

    /** One entry: append to three lists, overwrite the rest. */
    method Absorb(e: Info, clustered: bool)
      requires Valid()
      modifies this
      ensures Valid() && seen == old(seen) + [e] && nodes == if clustered then old(nodes) + [e] else old(nodes)
    {
      AddNics(e);
      AddVhds(e);
      AddSnapshots(e);
      Overwrite(e);
      if clustered {
        SetHa(e);
        nodes := nodes + [e];
      }
      seen := seen + [e];
    }

    /** All entries of the decoded output; nothing when it is blank or does not decode. */
    method ParseEnrichment(d: Decoded, clustered: bool)
      requires Valid()
      modifies this
      ensures Valid() && seen == old(seen) + Entries(d)
      ensures nodes == if clustered then old(nodes) + Entries(d) else old(nodes)
    {
      var infos := Entries(d);
      for i := 0 to |infos|
        invariant Valid() && seen == old(seen) + infos[..i]
        invariant nodes == if clustered then old(nodes) + infos[..i] else old(nodes)
      {
        assert infos[..i + 1] == infos[..i] + [infos[i]];
        Absorb(infos[i], clustered);
      }
      assert infos[..|infos|] == infos;
    }

    /** One row per basic row, in order. */
    method AssembleVMInventory(basics: seq<Basic>) returns (vms: seq<VmInfo>)
      requires Valid()
      ensures Joined(vms, basics, seen, nodes)
    {
      vms := [];
      for i := 0 to |basics|
        invariant Joined(vms, basics[..i], seen, nodes)
      {
        var vm := AssembleRow(basics[i]);
        JoinedOne(vms, basics[..i], seen, nodes, vm, basics[i]);
        assert basics[..i + 1] == basics[..i] + [basics[i]];
        vms := vms + [vm];
      }
      assert basics[..|basics|] == basics;
    }

    method AssembleRow(b: Basic) returns (vm: VmInfo)
      requires Valid()
      ensures vm == Join(b, seen, nodes)
    {
      var guestOs := b.guestOs;
      if guestOs.Some? {
        TrimmedAway(guestOs.value);
        if TrimSpace(guestOs.value) == "" { guestOs := None; }
      }
      var nicList, vhdList, snapshotList := LookUpLists(b.name);
      var disc, firm, nest, high := LookUpRest(b);
      vm := VmInfo(b.id, b.name, b.facts, nicList, vhdList, disc, snapshotList, high, nest, firm.secureBoot,
                   firm.template, guestOs);
    }

    /** The three lists, an absent one made empty. */
    method LookUpLists(name: string) returns (n: Slice<Nic>, v: Slice<Vhd>, s: Slice<Snapshot>)
      requires Valid()
      ensures n == Of(Flat(OfName(seen, name), Nics)) && v == Of(Flat(OfName(seen, name), Vhds))
      ensures s == Of(Flat(OfName(seen, name), Snapshots))
    {
      ListSliced(nics, seen, name, Nics);
      ListSliced(vhds, seen, name, Vhds);
      ListSliced(snapshots, seen, name, Snapshots);
      n, v, s := Sliced(nics, name), Sliced(vhds, name), Sliced(snapshots, name);
      if n.Nil? { n := Of([]); }
      if v.Nil? { v := Of([]); }
      if s.Nil? { s := Of([]); }
    }

    /** The overwritten values, an absent one its zero value. */
    method LookUpRest(b: Basic) returns (disc: Option<string>, firm: Firmware, nest: bool, high: bool)
      requires Valid()
      ensures disc == Disc(seen, b.name)
      ensures var last := LastOf(OfName(seen, b.name));
              if last.Some?
              then nest == last.value.nested && firm.secureBoot == last.value.secureBoot && firm.template == last.value.template
              else !nest && !firm.secureBoot && firm.template == ""
      ensures var node := Node(nodes, b.id); high == (node.Some? && node.value.ha)
    {
      OverwritesLooked(dvd, nested, firmware, seen, b.name);
      HaLooked(ha, nodes, b.id);
      disc := if b.name in dvd then dvd[b.name] else None;
      firm := if b.name in firmware then firmware[b.name] else Firmware("", false, "");
      nest := b.name in nested && nested[b.name];
      high := b.id in ha && ha[b.id];
    }
  }

  /** Row by row the join of the basic rows. */
  ghost predicate Joined(vms: seq<VmInfo>, basics: seq<Basic>, infos: seq<Info>, nodes: seq<Info>) {
    |vms| == |basics| && forall i :: 0 <= i < |vms| ==> vms[i] == Join(basics[i], infos, nodes)
  }

  lemma JoinedOne(vms: seq<VmInfo>, basics: seq<Basic>, infos: seq<Info>, nodes: seq<Info>, vm: VmInfo, b: Basic)
    requires Joined(vms, basics, infos, nodes) && vm == Join(b, infos, nodes)
    ensures Joined(vms + [vm], basics + [b], infos, nodes)
  {
  }

  ghost predicate ListOk<T>(m: map<string, seq<T>>, seen: seq<Info>, f: Info -> seq<T>) {
    forall name {:trigger Get(m, name)} :: Get(m, name) == Flat(OfName(seen, name), f)
  }

  lemma ListGrows<T>(m: map<string, seq<T>>, seen: seq<Info>, e: Info, f: Info -> seq<T>)
    requires ListOk(m, seen, f)
    ensures ListOk(Appended(m, e.vmName, f(e)), seen + [e], f)
  {
    var m' := Appended(m, e.vmName, f(e));
    forall name ensures Get(m', name) == Flat(OfName(seen + [e], name), f) {
      SelectOne(seen, e, ByName(name));
      FlatOne(OfName(seen, name), e, f);
      assert Get(m, name) == Flat(OfName(seen, name), f);
      assert f(e) == [] ==> Get(m, name) + f(e) == Get(m, name);
    }
  }

  lemma ListSliced<T>(m: map<string, seq<T>>, seen: seq<Info>, name: string, f: Info -> seq<T>)
    requires ListOk(m, seen, f)
    ensures Filled(Sliced(m, name)) == Of(Flat(OfName(seen, name), f))
  {
    assert Get(m, name) == Flat(OfName(seen, name), f);
  }

  function Entries(d: Decoded): seq<Info> {
    match d
    case Blank => []
    case Array(infos) => infos
    case Single(info) => [info]
    case Garbled => []
  }

  ghost predicate DvdOk(dvd: map<string, Option<string>>, seen: seq<Info>) {
    forall name {:trigger Disc(seen, name)} :: (if name in dvd then dvd[name] else None) == Disc(seen, name)
  }

  ghost predicate NestedOk(nested: map<string, bool>, seen: seq<Info>) {
    forall name {:trigger Look(nested, name)} :: Look(nested, name) == NestedOf(LastOf(OfName(seen, name)))
  }

  ghost predicate FirmwareOk(firmware: map<string, Firmware>, seen: seq<Info>) {
    forall name {:trigger Look(firmware, name)} :: Look(firmware, name) == FirmwareOf(LastOf(OfName(seen, name)))
  }

  ghost predicate HaOk(ha: map<string, bool>, nodes: seq<Info>) {
    forall id {:trigger Look(ha, id)} :: Look(ha, id) == HaOf(Node(nodes, id))
  }

  function NestedOf(e: Option<Info>): Option<bool> {
    if e.Some? then Some(e.value.nested) else None
  }

  function FirmwareOf(e: Option<Info>): Option<Firmware> {
    if e.Some? then Some(Firmware(e.value.vmName, e.value.secureBoot, e.value.template)) else None
  }

  function HaOf(e: Option<Info>): Option<bool> {
    if e.Some? then Some(e.value.ha) else None
  }

  lemma LastGrows(seen: seq<Info>, e: Info, name: string)
    ensures LastOf(OfName(seen + [e], name)) == if Named(e, name) then Some(e) else LastOf(OfName(seen, name))
    ensures Disc(seen + [e], name) == if Named(e, name) && HasDisc(e) then e.dvd else Disc(seen, name)
  {
    SelectOne(seen, e, ByName(name));
    SelectOne(OfName(seen, name), e, HasDisc);
  }

  lemma OverwritesGrow(dvd: map<string, Option<string>>, nested: map<string, bool>, firmware: map<string, Firmware>,
                       seen: seq<Info>, e: Info)
    requires DvdOk(dvd, seen) && NestedOk(nested, seen) && FirmwareOk(firmware, seen)
    ensures DvdOk(if e.dvd.Some? then dvd[e.vmName := e.dvd] else dvd, seen + [e])
    ensures NestedOk(nested[e.vmName := e.nested], seen + [e])
    ensures FirmwareOk(firmware[e.vmName := Firmware(e.vmName, e.secureBoot, e.template)], seen + [e])
  {
    var dvd' := if e.dvd.Some? then dvd[e.vmName := e.dvd] else dvd;
    forall name ensures (if name in dvd' then dvd'[name] else None) == Disc(seen + [e], name) {
      LastGrows(seen, e, name);
    }
    var nested' := nested[e.vmName := e.nested];
    forall name ensures Look(nested', name) == NestedOf(LastOf(OfName(seen + [e], name))) {
      LastGrows(seen, e, name);
      assert Look(nested, name) == NestedOf(LastOf(OfName(seen, name)));
    }
    var firmware' := firmware[e.vmName := Firmware(e.vmName, e.secureBoot, e.template)];
    forall name ensures Look(firmware', name) == FirmwareOf(LastOf(OfName(seen + [e], name))) {
      LastGrows(seen, e, name);
      assert Look(firmware, name) == FirmwareOf(LastOf(OfName(seen, name)));
    }
  }

  lemma OverwritesLooked(dvd: map<string, Option<string>>, nested: map<string, bool>, firmware: map<string, Firmware>,
                         seen: seq<Info>, name: string)
    requires DvdOk(dvd, seen) && NestedOk(nested, seen) && FirmwareOk(firmware, seen)
    ensures (if name in dvd then dvd[name] else None) == Disc(seen, name)
    ensures Look(nested, name) == NestedOf(LastOf(OfName(seen, name)))
    ensures Look(firmware, name) == FirmwareOf(LastOf(OfName(seen, name)))
  {
  }

  lemma HaGrows(ha: map<string, bool>, nodes: seq<Info>, e: Info)
    requires HaOk(ha, nodes)
    ensures HaOk(ha[e.vmId := e.ha], nodes + [e])
  {
    var ha' := ha[e.vmId := e.ha];
    forall id ensures Look(ha', id) == HaOf(Node(nodes + [e], id)) {
      SelectOne(nodes, e, ById(id));
      assert Look(ha, id) == HaOf(Node(nodes, id));
    }
  }

  lemma HaLooked(ha: map<string, bool>, nodes: seq<Info>, id: string)
    requires HaOk(ha, nodes)
    ensures Look(ha, id) == HaOf(Node(nodes, id))
  {
  }

  lemma StandaloneHasNoHa(vms: seq<VmInfo>, basics: seq<Basic>, infos: seq<Info>)
    requires Joined(vms, basics, infos, [])
    ensures forall i :: 0 <= i < |vms| ==> !vms[i].ha
  {
    forall i | 0 <= i < |vms| ensures !vms[i].ha {
      assert vms[i] == Join(basics[i], infos, []);
    }
  }

  /** What the decoded output comes to: a list, a single entry as a list, or nothing. */
  predicate Decodes(d: Decoded, infos: seq<Info>) {
    match d
    case Array(all) => infos == all
    case Single(one) => infos == [one]
    case Blank => infos == []
    case Garbled => infos == []
  }

  /** The whole inventory of one call: a join of the basic rows with the entries, every
      field of every row read from where it belongs. */
  method HandleVMInventory(basics: seq<Basic>, d: Decoded, clustered: bool) returns (vms: seq<VmInfo>)
    ensures Joined(vms, basics, Entries(d), Nodes(Entries(d), clustered))
    ensures !clustered ==> forall i :: 0 <= i < |vms| ==> !vms[i].ha
    ensures |vms| == |basics|
    ensures forall infos :: Decodes(d, infos) ==> forall i :: 0 <= i < |vms| ==> Reads(vms[i], basics[i], infos, clustered)
  {
    var maps := new Maps();
    maps.ParseEnrichment(d, clustered);
    vms := maps.AssembleVMInventory(basics);
    assert [] + Entries(d) == Entries(d);
    if !clustered { StandaloneHasNoHa(vms, basics, Entries(d)); }
    forall i | 0 <= i < |vms| ensures Reads(vms[i], basics[i], Entries(d), clustered) {
      JoinReads(basics[i], Entries(d), clustered);
    }
  }
}

/**
 The plan validator's storage and network rules, and the look-ups the migration
 later makes with the same maps: what passing the rules guarantees for them.
 */
module Validation {
  import opened Wrappers
  import opened RangeHeader

  /** A reference to a storage container or a subnet. */
  datatype Ref = Ref(extId: string, name: string)

  /** One entry of a StorageMap or NetworkMap. */
  datatype Pair<D> = Pair(id: string, name: string, dest: D)

  datatype DestinationType = PodNetwork | Multus
  datatype NetworkDestination = NetworkDestination(kind: DestinationType, namespace: string, name: string)

  /** container is None when the disk has no backing info or no storage container reference. */
  datatype VmDisk = VmDisk(cdrom: bool, extId: string, container: Option<Ref>)
  datatype Nic = Nic(subnet: Option<Ref>)

  datatype Lookup = Found | NotFound | LookupError

  datatype Category = Error | Warning | Info
  datatype Subject =
    | UnmappedStorage(ref: Ref) | UnmappedNetwork(ref: Ref) | VolumeGroupDisk(id: string)
    | MissingStorageClass(storageClass: string) | MissingNad(namespace: string, name: string) | OtherSubject
  datatype Concern = Concern(category: Category, subject: Subject)

  // ----- Look-ups -----

  predicate Matches<D>(pair: Pair<D>, ref: Ref) {
    (pair.id != "" && pair.id == ref.extId) || (pair.name != "" && pair.name == ref.name)
  }

  /** The destination of the first entry that matches. */
  function FirstMatch<D>(pairs: seq<Pair<D>>, ref: Ref): Option<D> {
    if pairs == [] then None
    else if Matches(pairs[0], ref) then Some(pairs[0].dest)
    else FirstMatch(pairs[1..], ref)
  }

  predicate IsMapped<D>(pairs: Option<seq<Pair<D>>>, ref: Ref) {
    pairs.Some? && exists i :: 0 <= i < |pairs.value| && Matches(pairs.value[i], ref)
  }

  function Mapped<D(!new)>(pairs: Option<seq<Pair<D>>>): Ref -> bool {
    ref => IsMapped(pairs, ref)
  }

  /** The search finds the first entry whose non-empty id or non-empty name is the reference's. */
  lemma FirstMatchMeaning<D>(pairs: seq<Pair<D>>, ref: Ref)
    ensures FirstMatch(pairs, ref).Some? <==>
      exists i :: 0 <= i < |pairs| && ((pairs[i].id != "" && pairs[i].id == ref.extId) ||
                                       (pairs[i].name != "" && pairs[i].name == ref.name))
    ensures FirstMatch(pairs, ref).Some? <==> exists i :: 0 <= i < |pairs| && Matches(pairs[i], ref)
    ensures FirstMatch(pairs, ref).Some? ==>
      exists i :: 0 <= i < |pairs| && IsFirstMatch(pairs, ref, i) && pairs[i].dest == FirstMatch(pairs, ref).value
  {
    FirstMatchFound(pairs, ref);
    forall i | 0 <= i < |pairs|
      ensures Matches(pairs[i], ref) <==> (pairs[i].id != "" && pairs[i].id == ref.extId) ||
                                          (pairs[i].name != "" && pairs[i].name == ref.name)
    {
    }
  }

  ghost predicate IsFirstMatch<D>(pairs: seq<Pair<D>>, ref: Ref, i: nat)
    requires i < |pairs|
  {
    Matches(pairs[i], ref) && forall j :: 0 <= j < i ==> !Matches(pairs[j], ref)
  }

  lemma {:induction false} FirstMatchFound<D>(pairs: seq<Pair<D>>, ref: Ref)
    ensures FirstMatch(pairs, ref).Some? <==> exists i :: 0 <= i < |pairs| && Matches(pairs[i], ref)
    ensures FirstMatch(pairs, ref).Some? ==>
      exists i :: 0 <= i < |pairs| && IsFirstMatch(pairs, ref, i) && pairs[i].dest == FirstMatch(pairs, ref).value
    decreases |pairs|
  {
    if pairs != [] && Matches(pairs[0], ref) {
      assert IsFirstMatch(pairs, ref, 0);
    } else if pairs != [] {
      var rest := pairs[1..];
      FirstMatchFound(rest, ref);
      if i :| 0 <= i < |pairs| && Matches(pairs[i], ref) {
        assert Matches(rest[i - 1], ref);
      }
      if FirstMatch(rest, ref).Some? {
        var i :| 0 <= i < |rest| && IsFirstMatch(rest, ref, i) && rest[i].dest == FirstMatch(rest, ref).value;
        assert pairs[i + 1] == rest[i];
        forall j | 0 <= j < i + 1
          ensures !Matches(pairs[j], ref)
        {
          assert j > 0 ==> pairs[j] == rest[j - 1];
        }
        assert IsFirstMatch(pairs, ref, i + 1);
      }
    }
  }

  /** The search the validator, the transfer manager and the VM builder each make. */
  method FindDestination<D>(pairs: seq<Pair<D>>, ref: Ref) returns (dest: Option<D>)
    ensures dest == FirstMatch(pairs, ref)
  {
    for i := 0 to |pairs|
      invariant FirstMatch(pairs, ref) == FirstMatch(pairs[i..], ref)
    {
      assert pairs[i..][1..] == pairs[i + 1..];
      if Matches(pairs[i], ref) {
        return Some(pairs[i].dest);
      }
    }
    return None;
  }

  // ----- Unmapped references -----

  function Key(ref: Ref): string {
    ref.extId + "/" + ref.name
  }

  /** References that look the same to the rule are the same. */
  ghost predicate KeysDistinguish(refs: seq<Ref>) {
    forall i, j :: 0 <= i < |refs| && 0 <= j < |refs| && Key(refs[i]) == Key(refs[j]) ==> refs[i] == refs[j]
  }

  function Keys(refs: seq<Ref>): set<string> {
    if refs == [] then {} else Keys(refs[..|refs| - 1]) + {Key(refs[|refs| - 1])}
  }

  /** The references that are the first of their key, in order. */
  function Firsts(refs: seq<Ref>): seq<Ref> {
    if refs == [] then []
    else
      var front, last := refs[..|refs| - 1], refs[|refs| - 1];
      if Key(last) in Keys(front) then Firsts(front) else Firsts(front) + [last]
  }

  lemma {:induction false} FirstsAreRefs(refs: seq<Ref>, x: Ref)
    requires x in Firsts(refs)
    ensures x in refs && Key(x) in Keys(refs)
    decreases |refs|
  {
    var front := refs[..|refs| - 1];
    if x in Firsts(front) {
      FirstsAreRefs(front, x);
    }
  }

  lemma {:induction false} KeyHasFirst(refs: seq<Ref>, k: string) returns (x: Ref)
    requires k in Keys(refs)
    ensures x in Firsts(refs) && Key(x) == k
    decreases |refs|
  {
    var front, last := refs[..|refs| - 1], refs[|refs| - 1];
    if k in Keys(front) {
      x := KeyHasFirst(front, k);
    } else {
      x := last;
    }
  }

  lemma {:induction false} RefHasKey(refs: seq<Ref>, i: nat)
    requires i < |refs|
    ensures Key(refs[i]) in Keys(refs)
    decreases |refs|
  {
    if i < |refs| - 1 {
      RefHasKey(refs[..|refs| - 1], i);
    }
  }

  function Failing(refs: seq<Ref>, ok: Ref -> bool): (r: seq<Ref>)
    ensures forall x :: x in r <==> x in refs && !ok(x)
  {
    if refs == [] then []
    else Failing(refs[..|refs| - 1], ok) + (if ok(refs[|refs| - 1]) then [] else [refs[|refs| - 1]])
  }

  ghost predicate AllPass(refs: seq<Ref>, ok: Ref -> bool) {
    forall x :: x in refs ==> ok(x)
  }

  lemma FirstsGrow(refs: seq<Ref>, i: nat, ok: Ref -> bool)
    requires i < |refs|
    ensures Keys(refs[..i + 1]) == Keys(refs[..i]) + {Key(refs[i])}
    ensures Key(refs[i]) in Keys(refs[..i]) ==> Firsts(refs[..i + 1]) == Firsts(refs[..i])
    ensures Key(refs[i]) !in Keys(refs[..i]) ==>
      Failing(Firsts(refs[..i + 1]), ok) == Failing(Firsts(refs[..i]), ok) + (if ok(refs[i]) then [] else [refs[i]])
  {
    var firsts := Firsts(refs[..i]);
    assert refs[..i + 1][..i] == refs[..i];
    assert (firsts + [refs[i]])[..|firsts|] == firsts;
  }

  /** The loop with its `seen` keys. */
  method ReportFailing(refs: seq<Ref>, ok: Ref -> bool) returns (failing: seq<Ref>)
    ensures failing == Failing(Firsts(refs), ok)
  {
    failing := [];
    var seen: set<string> := {};
    for i := 0 to |refs|
      invariant failing == Failing(Firsts(refs[..i]), ok)
      invariant seen == Keys(refs[..i])
    {
      FirstsGrow(refs, i, ok);
      var ref := refs[i];
      if Key(ref) in seen {
        continue;
      }
      seen := seen + {Key(ref)};
      if !ok(ref) {
        failing := failing + [ref];
      }
    }
    assert refs[..|refs|] == refs;
  }

  /** If the keys tell the references apart, silence means that every reference passes. */
  lemma SilenceMeansAllPass(refs: seq<Ref>, ok: Ref -> bool)
    requires KeysDistinguish(refs)
    ensures Failing(Firsts(refs), ok) == [] <==> AllPass(refs, ok)
  {
    var r := Failing(Firsts(refs), ok);
    if r == [] {
      forall i | 0 <= i < |refs|
        ensures ok(refs[i])
      {
        RefHasKey(refs, i);
        var y := KeyHasFirst(refs, Key(refs[i]));
        FirstsAreRefs(refs, y);
        var j :| 0 <= j < |refs| && refs[j] == y;
        assert refs[i] == refs[j];
        assert y !in r;
      }
    } else {
      FirstsAreRefs(refs, r[0]);
      assert r[0] in r;
    }
  }

  /** Ids without a slash make the key unambiguous. */
  lemma SlashFreeIdsDistinguish(refs: seq<Ref>)
    requires forall x :: x in refs ==> '/' !in x.extId
    ensures KeysDistinguish(refs)
  {
    forall i, j | 0 <= i < |refs| && 0 <= j < |refs| && Key(refs[i]) == Key(refs[j])
      ensures refs[i] == refs[j]
    {
      KeyParts(refs[i], refs[j]);
    }
  }

  lemma KeyParts(a: Ref, b: Ref)
    requires Key(a) == Key(b) && '/' !in a.extId && '/' !in b.extId
    ensures a == b
  {
    IndexOfAppend(a.extId, '/', a.name);
    IndexOfAppend(b.extId, '/', b.name);
    var k := Key(a);
    assert k[..|a.extId|] == a.extId && k[|a.extId| + 1..] == a.name;
    assert k[..|b.extId|] == b.extId && k[|b.extId| + 1..] == b.name;
  }

  // ----- When the de-duplication is safe -----

  /** A map in which everything but ref is mapped. */
  function MapAllBut(refs: seq<Ref>, ref: Ref): seq<Pair<int>> {
    if refs == [] then []
    else
      var x := refs[|refs| - 1];
      MapAllBut(refs[..|refs| - 1], ref)
      + [Pair(if x.extId != ref.extId then x.extId else "", if x.name != ref.name then x.name else "", 0)]
  }

  lemma {:induction false} MapAllButMeaning(refs: seq<Ref>, ref: Ref)
    requires ref.extId != "" && ref.name != "" && forall x :: x in refs ==> x.extId != "" && x.name != ""
    ensures !IsMapped(Some(MapAllBut(refs, ref)), ref)
    ensures forall x :: x in refs && x != ref ==> IsMapped(Some(MapAllBut(refs, ref)), x)
    decreases |refs|
  {
    if refs != [] {
      var front, last := refs[..|refs| - 1], refs[|refs| - 1];
      MapAllButMeaning(front, ref);
      var was, all := MapAllBut(front, ref), MapAllBut(refs, ref);
      forall x | x in refs && x != ref
        ensures IsMapped(Some(all), x)
      {
        if x in front {
          var i :| 0 <= i < |was| && Matches(was[i], x);
          assert all[i] == was[i];
        } else {
          assert Matches(all[|all| - 1], x);
        }
      }
      assert forall i :: 0 <= i < |was| ==> all[i] == was[i];
    }
  }

  /**
   For references with an id and a name, the rule can be trusted under every map
   if and only if the keys tell them apart: otherwise some map leaves a reference
   unmapped without a word.
   */
  lemma DeduplicationIsSafeIff(refs: seq<Ref>)
    requires forall x :: x in refs ==> x.extId != "" && x.name != ""
    ensures (forall pairs: Option<seq<Pair<int>>> ::
               Failing(Firsts(refs), Mapped(pairs)) == [] ==> AllPass(refs, Mapped(pairs)))
            <==> KeysDistinguish(refs)
  {
    if KeysDistinguish(refs) {
      forall pairs: Option<seq<Pair<int>>> | Failing(Firsts(refs), Mapped(pairs)) == []
        ensures AllPass(refs, Mapped(pairs))
      {
        SilenceMeansAllPass(refs, Mapped(pairs));
      }
    } else {
      var hidden := HiddenRef(refs);
      var pairs := Some(MapAllBut(refs, hidden));
      MapAllButMeaning(refs, hidden);
      var r := Failing(Firsts(refs), Mapped(pairs));
      if r != [] {
        assert r[0] in r;
        FirstsAreRefs(refs, r[0]);
        assert false;
      }
      assert !AllPass(refs, Mapped(pairs));
    }
  }

  /** If two references share a key, one of them is not first. */
  lemma HiddenRef(refs: seq<Ref>) returns (hidden: Ref)
    requires !KeysDistinguish(refs)
    ensures hidden in refs && hidden !in Firsts(refs)
  {
    var i, j :| 0 <= i < |refs| && 0 <= j < |refs| && Key(refs[i]) == Key(refs[j]) && refs[i] != refs[j];
    FirstsUnique(refs, refs[i], refs[j]);
    hidden := if refs[i] in Firsts(refs) then refs[j] else refs[i];
  }

  lemma {:induction false} FirstsUnique(refs: seq<Ref>, x: Ref, y: Ref)
    requires x != y && Key(x) == Key(y)
    ensures !(x in Firsts(refs) && y in Firsts(refs))
    decreases |refs|
  {
    if refs != [] {
      var front := refs[..|refs| - 1];
      FirstsUnique(front, x, y);
      if x in Firsts(front) {
        FirstsAreRefs(front, x);
      }
      if y in Firsts(front) {
        FirstsAreRefs(front, y);
      }
    }
  }

  /** Two containers that look the same to the rule. */
  lemma SlashInIdHidesContainer()
    ensures
      var refs := [Ref("a", "b/c"), Ref("a/b", "c")];
      var pairs := Some([Pair("a", "", 0)]);
      Failing(Firsts(refs), Mapped(pairs)) == [] && !AllPass(refs, Mapped(pairs))
  {
    var x, y := Ref("a", "b/c"), Ref("a/b", "c");
    var pairs := Some([Pair("a", "", 0)]);
    assert Key(x) == "a/b/c" == Key(y);
    assert Matches(pairs.value[0], x);
    SecondIsHidden(x, y, Mapped(pairs));
  }

  lemma SecondIsHidden(x: Ref, y: Ref, ok: Ref -> bool)
    requires Key(x) == Key(y) && ok(x) && !ok(y)
    ensures Failing(Firsts([x, y]), ok) == [] && !AllPass([x, y], ok)
  {
    FirstsOfPair(x, y);
    assert [x][..0] == [];
    assert [x, y][1] in [x, y];
  }

  lemma FirstsOfPair(a: Ref, b: Ref)
    requires Key(a) == Key(b)
    ensures Firsts([a, b]) == [a]
  {
    assert [a, b][..1] == [a] && [a][..0] == [];
    assert Firsts([]) == [] && Keys([]) == {};
    assert Firsts([a]) == [a] && Keys([a]) == {Key(a)};
  }

  // ----- The rules -----

  datatype StorageDestination = StorageDestination(storageClass: string, volumeMode: string, accessMode: string)

  type StorageMap = Option<seq<Pair<StorageDestination>>>
  type NetworkMap = Option<seq<Pair<NetworkDestination>>>

  /** What the target cluster answers. */
  datatype Cluster = Cluster(storageClass: string -> Lookup, nad: Ref -> Lookup)

  function Containers(disks: seq<VmDisk>): (r: seq<Ref>)
    ensures forall d :: d in disks && !d.cdrom && d.container.Some? ==> d.container.value in r
  {
    if disks == [] then []
    else
      var front, d := disks[..|disks| - 1], disks[|disks| - 1];
      Containers(front) + (if d.cdrom || d.container.None? then [] else [d.container.value])
  }

  function Subnets(nics: seq<Nic>): (r: seq<Ref>)
    ensures forall n :: n in nics && n.subnet.Some? ==> n.subnet.value in r
  {
    if nics == [] then []
    else
      var front, n := nics[..|nics| - 1], nics[|nics| - 1];
      Subnets(front) + (if n.subnet.None? then [] else [n.subnet.value])
  }

  /** Where a NetworkAttachmentDefinition is looked for. */
  function NadOf(dest: NetworkDestination, targetNs: string): Ref {
    Ref(if dest.namespace == "" then targetNs else dest.namespace, dest.name)
  }

  predicate NeedsNad(pairs: seq<Pair<NetworkDestination>>, subnet: Ref) {
    FirstMatch(pairs, subnet).Some? && FirstMatch(pairs, subnet).value.kind == Multus
  }

  function Nads(subnets: seq<Ref>, pairs: seq<Pair<NetworkDestination>>, targetNs: string): (r: seq<Ref>)
    ensures forall x :: x in subnets && NeedsNad(pairs, x) ==> NadOf(FirstMatch(pairs, x).value, targetNs) in r
  {
    if subnets == [] then []
    else
      var front, x := subnets[..|subnets| - 1], subnets[|subnets| - 1];
      Nads(front, pairs, targetNs) + (if NeedsNad(pairs, x) then [NadOf(FirstMatch(pairs, x).value, targetNs)] else [])
  }

  ghost predicate NoError(concerns: seq<Concern>) {
    forall c :: c in concerns ==> c.category != Error
  }

  method HasErrors(concerns: seq<Concern>) returns (r: bool)
    ensures r <==> !NoError(concerns)
  {
    for i := 0 to |concerns|
      invariant forall j :: 0 <= j < i ==> concerns[j].category != Error
    {
      if concerns[i].category == Error {
        return true;
      }
    }
    return false;
  }

  method CheckUnmappedStorage(disks: seq<VmDisk>, storageMap: StorageMap) returns (concerns: seq<Concern>)
    ensures NoError(concerns) <==> Failing(Firsts(Containers(disks)), Mapped(storageMap)) == []
  {
    var refs: seq<Ref> := [];
    for i := 0 to |disks|
      invariant refs == Containers(disks[..i])
    {
      assert disks[..i + 1][..i] == disks[..i];
      if !disks[i].cdrom && disks[i].container.Some? {
        refs := refs + [disks[i].container.value];
      }
    }
    assert disks[..|disks|] == disks;
    var failing := ReportFailing(refs, Mapped(storageMap));
    concerns := seq(|failing|, i requires 0 <= i < |failing| => Concern(Error, UnmappedStorage(failing[i])));
    assert failing != [] ==> concerns[0] in concerns;
  }

  method CheckUnmappedNetwork(nics: seq<Nic>, networkMap: NetworkMap) returns (concerns: seq<Concern>)
    ensures NoError(concerns) <==> Failing(Firsts(Subnets(nics)), Mapped(networkMap)) == []
  {
    var refs := CollectSubnets(nics);
    var failing := ReportFailing(refs, Mapped(networkMap));
    concerns := seq(|failing|, i requires 0 <= i < |failing| => Concern(Error, UnmappedNetwork(failing[i])));
    assert failing != [] ==> concerns[0] in concerns;
  }

  method CollectSubnets(nics: seq<Nic>) returns (refs: seq<Ref>)
    ensures refs == Subnets(nics)
  {
    refs := [];
    for i := 0 to |nics|
      invariant refs == Subnets(nics[..i])
    {
      assert nics[..i + 1][..i] == nics[..i];
      if nics[i].subnet.Some? {
        refs := refs + [nics[i].subnet.value];
      }
    }
    assert nics[..|nics|] == nics;
  }

  method CheckVolumeGroupDisks(disks: seq<VmDisk>) returns (concerns: seq<Concern>)
    ensures NoError(concerns) <==> forall d :: d in disks && !d.cdrom ==> d.container.Some?
  {
    concerns := [];
    for i := 0 to |disks|
      invariant NoError(concerns) <==> forall j :: 0 <= j < i && !disks[j].cdrom ==> disks[j].container.Some?
    {
      if !disks[i].cdrom && disks[i].container.None? {
        concerns := concerns + [Concern(Error, VolumeGroupDisk(disks[i].extId))];
        assert concerns[|concerns| - 1] in concerns;
      }
    }
  }

  /** The classes of all entries that match some data disk. */
  ghost predicate ClassesExist(containers: seq<Ref>, pairs: seq<Pair<StorageDestination>>, cluster: Cluster) {
    forall x, i :: x in containers && 0 <= i < |pairs| && Matches(pairs[i], x) ==>
      cluster.storageClass(pairs[i].dest.storageClass) != NotFound
  }

  method CheckStorageClasses(cluster: Cluster, disks: seq<VmDisk>, storageMap: StorageMap)
    returns (concerns: seq<Concern>)
    ensures NoError(concerns) <==>
      (storageMap.Some? ==> ClassesExist(Containers(disks), storageMap.value, cluster))
  {
    if storageMap.None? {
      return [];
    }
    var needed := NeededClasses(disks, storageMap.value);
    concerns := [];
    var rest := needed;
    while rest != {}
      invariant rest <= needed
      invariant NoError(concerns) <==> forall c :: c in needed - rest ==> cluster.storageClass(c) != NotFound
      decreases |rest|
    {
      var c :| c in rest;
      if cluster.storageClass(c) == NotFound {
        concerns := concerns + [Concern(Error, MissingStorageClass(c))];
        assert concerns[|concerns| - 1] in concerns;
      }
      rest := rest - {c};
    }
    assert needed - rest == needed;
    ClassesNeeded(Containers(disks), storageMap.value, needed, cluster);
  }

  /** The classes of the entries that match one of the containers. */
  ghost predicate IsNeeded(containers: seq<Ref>, pairs: seq<Pair<StorageDestination>>, c: string) {
    exists x, i :: x in containers && 0 <= i < |pairs| && Matches(pairs[i], x) && c == pairs[i].dest.storageClass
  }

  lemma ClassesNeeded(containers: seq<Ref>, pairs: seq<Pair<StorageDestination>>, needed: set<string>, cluster: Cluster)
    requires forall c :: c in needed <==> IsNeeded(containers, pairs, c)
    ensures ClassesExist(containers, pairs, cluster) <==>
            forall c :: c in needed ==> cluster.storageClass(c) != NotFound
  {
    if forall c :: c in needed ==> cluster.storageClass(c) != NotFound {
      forall x, i | x in containers && 0 <= i < |pairs| && Matches(pairs[i], x)
        ensures cluster.storageClass(pairs[i].dest.storageClass) != NotFound
      {
        assert IsNeeded(containers, pairs, pairs[i].dest.storageClass);
      }
    }
  }

  method NeededClasses(disks: seq<VmDisk>, pairs: seq<Pair<StorageDestination>>) returns (needed: set<string>)
    ensures forall c :: c in needed <==> IsNeeded(Containers(disks), pairs, c)
  {
    needed := {};
    for i := 0 to |disks|
      invariant forall c :: c in needed <==> IsNeeded(Containers(disks[..i]), pairs, c)
    {
      assert disks[..i + 1][..i] == disks[..i];
      if !disks[i].cdrom && disks[i].container.Some? {
        var more := ClassesOf(disks[i].container.value, pairs);
        NeededGrows(Containers(disks[..i]), disks[i].container.value, pairs);
        needed := needed + more;
        assert Containers(disks[..i + 1]) == Containers(disks[..i]) + [disks[i].container.value];
      } else {
        assert Containers(disks[..i + 1]) == Containers(disks[..i]);
      }
    }
    assert disks[..|disks|] == disks;
  }

  lemma NeededGrows(containers: seq<Ref>, x: Ref, pairs: seq<Pair<StorageDestination>>)
    ensures forall c ::
      IsNeeded(containers + [x], pairs, c) <==> IsNeeded(containers, pairs, c) || IsNeeded([x], pairs, c)
  {
    forall c
      ensures IsNeeded(containers + [x], pairs, c) <==> IsNeeded(containers, pairs, c) || IsNeeded([x], pairs, c)
    {
      if IsNeeded(containers + [x], pairs, c) {
        var y, i :|
          y in containers + [x] && 0 <= i < |pairs| && Matches(pairs[i], y) && c == pairs[i].dest.storageClass;
        assert y in containers || y in [x];
      }
      if y, i :| y in containers && 0 <= i < |pairs| && Matches(pairs[i], y) && c == pairs[i].dest.storageClass {
        assert y in containers + [x];
      }
      if y, i :| y in [x] && 0 <= i < |pairs| && Matches(pairs[i], y) && c == pairs[i].dest.storageClass {
        assert y in containers + [x];
      }
    }
  }

  method ClassesOf(x: Ref, pairs: seq<Pair<StorageDestination>>) returns (needed: set<string>)
    ensures forall c :: c in needed <==> IsNeeded([x], pairs, c)
  {
    needed := {};
    for i := 0 to |pairs|
      invariant forall c :: c in needed <==>
        exists j :: 0 <= j < i && Matches(pairs[j], x) && c == pairs[j].dest.storageClass
    {
      if Matches(pairs[i], x) {
        needed := needed + {pairs[i].dest.storageClass};
      }
    }
    assert x in [x];
  }

  method CheckMultusNads(cluster: Cluster, nics: seq<Nic>, networkMap: NetworkMap, targetNs: string)
    returns (concerns: seq<Concern>)
    ensures NoError(concerns) <==>
      (networkMap.Some? ==> Failing(Firsts(Nads(Subnets(nics), networkMap.value, targetNs)), NadFound(cluster)) == [])
  {
    if networkMap.None? {
      return [];
    }
    var nads := CollectNads(nics, networkMap.value, targetNs);
    var failing := ReportFailing(nads, NadFound(cluster));
    concerns := seq(|failing|, i requires 0 <= i < |failing| =>
      Concern(Error, MissingNad(failing[i].extId, failing[i].name)));
    assert failing != [] ==> concerns[0] in concerns;
  }

  function NadFound(cluster: Cluster): Ref -> bool {
    nad => cluster.nad(nad) == Found
  }

  method CollectNads(nics: seq<Nic>, pairs: seq<Pair<NetworkDestination>>, targetNs: string) returns (nads: seq<Ref>)
    ensures nads == Nads(Subnets(nics), pairs, targetNs)
  {
    var subnets := CollectSubnets(nics);
    nads := [];
    for i := 0 to |subnets|
      invariant nads == Nads(subnets[..i], pairs, targetNs)
    {
      assert subnets[..i + 1][..i] == subnets[..i];
      var dest := FindDestination(pairs, subnets[i]);
      if dest.Some? && dest.value.kind == Multus {
        nads := nads + [NadOf(dest.value, targetNs)];
      }
    }
    assert subnets[..|subnets|] == subnets;
  }

  // ----- What passing means for the migration -----

  /** Every data disk has an entry to take its storage class from, and the class was looked up. */
  ghost predicate StorageReady(disks: seq<VmDisk>, storageMap: StorageMap, cluster: Option<Cluster>) {
    forall d :: d in disks && !d.cdrom ==>
      && d.container.Some? && storageMap.Some?
      && FirstMatch(storageMap.value, d.container.value).Some?
      && (cluster.Some? ==>
            cluster.value.storageClass(FirstMatch(storageMap.value, d.container.value).value.storageClass) != NotFound)
  }

  /** Every NIC with a subnet has a destination, and a Multus one was found. */
  ghost predicate NetworkReady(nics: seq<Nic>, networkMap: NetworkMap, targetNs: string, cluster: Option<Cluster>) {
    forall n :: n in nics && n.subnet.Some? ==>
      && networkMap.Some?
      && FirstMatch(networkMap.value, n.subnet.value).Some?
      && (cluster.Some? && NeedsNad(networkMap.value, n.subnet.value) ==>
            cluster.value.nad(NadOf(FirstMatch(networkMap.value, n.subnet.value).value, targetNs)) == Found)
  }

  lemma StorageRulesSound(disks: seq<VmDisk>, storageMap: StorageMap, cluster: Option<Cluster>)
    requires KeysDistinguish(Containers(disks))
    requires Failing(Firsts(Containers(disks)), Mapped(storageMap)) == []
    requires forall d :: d in disks && !d.cdrom ==> d.container.Some?
    requires cluster.Some? && storageMap.Some? ==> ClassesExist(Containers(disks), storageMap.value, cluster.value)
    ensures StorageReady(disks, storageMap, cluster)
  {
    SilenceMeansAllPass(Containers(disks), Mapped(storageMap));
    forall d | d in disks && !d.cdrom
      ensures storageMap.Some? && FirstMatch(storageMap.value, d.container.value).Some?
      ensures cluster.Some? ==>
        cluster.value.storageClass(FirstMatch(storageMap.value, d.container.value).value.storageClass) != NotFound
    {
      var x := d.container.value;
      assert Mapped(storageMap)(x);
      FirstMatchMeaning(storageMap.value, x);
    }
  }

  lemma NetworkRulesSound(nics: seq<Nic>, networkMap: NetworkMap, targetNs: string, cluster: Option<Cluster>)
    requires KeysDistinguish(Subnets(nics))
    requires Failing(Firsts(Subnets(nics)), Mapped(networkMap)) == []
    requires cluster.Some? && networkMap.Some? ==>
      var nads := Nads(Subnets(nics), networkMap.value, targetNs);
      KeysDistinguish(nads) && Failing(Firsts(nads), NadFound(cluster.value)) == []
    ensures NetworkReady(nics, networkMap, targetNs, cluster)
  {
    SilenceMeansAllPass(Subnets(nics), Mapped(networkMap));
    if cluster.Some? && networkMap.Some? {
      SilenceMeansAllPass(Nads(Subnets(nics), networkMap.value, targetNs), NadFound(cluster.value));
    }
    forall n | n in nics && n.subnet.Some?
      ensures networkMap.Some? && FirstMatch(networkMap.value, n.subnet.value).Some?
      ensures cluster.Some? && NeedsNad(networkMap.value, n.subnet.value) ==>
        cluster.value.nad(NadOf(FirstMatch(networkMap.value, n.subnet.value).value, targetNs)) == Found
    {
      var x := n.subnet.value;
      assert Mapped(networkMap)(x);
      FirstMatchMeaning(networkMap.value, x);
      if cluster.Some? && NeedsNad(networkMap.value, x) {
        assert NadFound(cluster.value)(NadOf(FirstMatch(networkMap.value, x).value, targetNs));
      }
    }
  }

  /** No key of the three de-duplications is shared by different references. */
  ghost predicate NoSharedKeys(disks: seq<VmDisk>, nics: seq<Nic>, networkMap: NetworkMap, targetNs: string) {
    && KeysDistinguish(Containers(disks)) && KeysDistinguish(Subnets(nics))
    && (networkMap.Some? ==> KeysDistinguish(Nads(Subnets(nics), networkMap.value, targetNs)))
  }

  lemma NoErrorAppend(a: seq<Concern>, b: seq<Concern>)
    ensures NoError(a + b) <==> NoError(a) && NoError(b)
  {
    if NoError(a + b) {
      forall c | c in a || c in b
        ensures c.category != Error
      {
        assert c in a + b;
      }
    }
  }

  /**
   The validator, with the rules on GPUs, NIC types, MAC addresses, IDE disks, the
   namespace and the installed operators left to the caller as their outcome. If
   it reports no Error, the migration's look-ups all succeed.
   */
  method Validate(disks: seq<VmDisk>, nics: seq<Nic>, storageMap: StorageMap, networkMap: NetworkMap,
                  targetNs: string, cluster: Option<Cluster>, otherSource: seq<Concern>, otherTarget: seq<Concern>)
    returns (concerns: seq<Concern>)
    ensures NoError(concerns) <==>
      && Failing(Firsts(Containers(disks)), Mapped(storageMap)) == []
      && Failing(Firsts(Subnets(nics)), Mapped(networkMap)) == []
      && (forall d :: d in disks && !d.cdrom ==> d.container.Some?)
      && NoError(otherSource)
      && (cluster.Some? ==>
            && (storageMap.Some? ==> ClassesExist(Containers(disks), storageMap.value, cluster.value))
            && (networkMap.Some? ==>
                  Failing(Firsts(Nads(Subnets(nics), networkMap.value, targetNs)), NadFound(cluster.value)) == [])
            && NoError(otherTarget))
    ensures NoError(concerns) && NoSharedKeys(disks, nics, networkMap, targetNs) ==>
      StorageReady(disks, storageMap, cluster) && NetworkReady(nics, networkMap, targetNs, cluster)
  {
    var storage := CheckUnmappedStorage(disks, storageMap);
    var network := CheckUnmappedNetwork(nics, networkMap);
    var volumeGroups := CheckVolumeGroupDisks(disks);
    concerns := storage + network;
    NoErrorAppend(storage, network);
    NoErrorAppend(concerns, volumeGroups);
    concerns := concerns + volumeGroups;
    NoErrorAppend(concerns, otherSource);
    concerns := concerns + otherSource;
    if cluster.Some? {
      var classes := CheckStorageClasses(cluster.value, disks, storageMap);
      NoErrorAppend(concerns, classes);
      concerns := concerns + classes;
      var nads := CheckMultusNads(cluster.value, nics, networkMap, targetNs);
      NoErrorAppend(concerns, nads);
      concerns := concerns + nads;
      NoErrorAppend(concerns, otherTarget);
      concerns := concerns + otherTarget;
    }
    if NoError(concerns) && NoSharedKeys(disks, nics, networkMap, targetNs) {
      StorageRulesSound(disks, storageMap, cluster);
      NetworkRulesSound(nics, networkMap, targetNs, cluster);
    }
  }

  // ----- The consumers -----

  /** The storage class of a disk's DataVolume, with the fallback for an unmapped disk. */
  method PickStorageClass(disk: VmDisk, storageMap: StorageMap,
                          ghost disks: seq<VmDisk>, ghost cluster: Option<Cluster>)
    returns (storageClass: string)
    requires disk in disks && !disk.cdrom && StorageReady(disks, storageMap, cluster)
    ensures exists i :: 0 <= i < |storageMap.value| && IsFirstMatch(storageMap.value, disk.container.value, i)
                        && storageClass == storageMap.value[i].dest.storageClass
    ensures cluster.Some? ==> cluster.value.storageClass(storageClass) != NotFound
  {
    storageClass := "default";
    FirstMatchMeaning(storageMap.value, disk.container.value);
    var dest := FindDestination(storageMap.value, disk.container.value);
    if dest.Some? {
      storageClass := dest.value.storageClass;
    }
  }

  datatype NetworkSource = UsePod | UseMultus(networkName: string)

  /** How Multus reads a network name: namespace/name, or a name in the pod's own namespace. */
  function ResolveNetworkName(networkName: string, targetNs: string): Ref {
    var i := IndexOf(networkName, '/');
    if i == |networkName| then Ref(targetNs, networkName) else Ref(networkName[..i], networkName[i + 1..])
  }

  /** The network of a NIC: a Multus one names the very attachment that was looked up. */
  method BuildNetwork(nic: Nic, networkMap: NetworkMap, targetNs: string,
                      ghost nics: seq<Nic>, ghost cluster: Option<Cluster>)
    returns (source: NetworkSource)
    requires nic in nics && NetworkReady(nics, networkMap, targetNs, cluster)
    ensures nic.subnet.None? ==> source == UsePod
    ensures nic.subnet.Some? ==>
      var dest := FirstMatch(networkMap.value, nic.subnet.value).value;
      && (source.UseMultus? <==> dest.kind == Multus)
      && (source.UseMultus? && '/' !in dest.namespace && '/' !in dest.name ==>
            var nad := ResolveNetworkName(source.networkName, targetNs);
            nad == NadOf(dest, targetNs) && (cluster.Some? ==> cluster.value.nad(nad) == Found))
  {
    source := UsePod;
    if nic.subnet.None? || networkMap.None? {
      return;
    }
    var dest := FindDestination(networkMap.value, nic.subnet.value);
    if dest.Some? && dest.value.kind == Multus {
      var networkName := dest.value.name;
      if dest.value.namespace != "" {
        networkName := dest.value.namespace + "/" + dest.value.name;
        if '/' !in dest.value.namespace {
          IndexOfAppend(dest.value.namespace, '/', dest.value.name);
        }
        assert networkName[..|dest.value.namespace|] == dest.value.namespace;
        assert networkName[|dest.value.namespace| + 1..] == dest.value.name;
      }
      source := UseMultus(networkName);
    }
  }
}

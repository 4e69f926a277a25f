/**
 Which source disk each image, DataVolume, delta pod and volume belongs to when
 CDROMs are mixed in, and the names that tie them together.
 */
module Alignment {
  import opened Wrappers
  import opened Decimals
  import opened Machine
  import opened Sanitize

  datatype SourceDisk = SourceDisk(extId: string, deviceType: string, vmDiskUuid: string)

  // ----- Data disks -----

  function Upper(c: char): char {
    if 'a' <= c <= 'z' then (c as int - 'a' as int + 'A' as int) as char else c
  }

  predicate IsCdrom(d: SourceDisk) {
    |d.deviceType| == 5 && forall i :: 0 <= i < 5 ==> Upper(d.deviceType[i]) == "CDROM"[i]
  }

  /** A disk is skipped exactly when its device type spells CDROM, in upper or lower case. */
  lemma CdromWrittenOut(d: SourceDisk)
    ensures IsCdrom(d) <==>
      var t := d.deviceType;
      && |t| == 5 && (t[0] == 'C' || t[0] == 'c') && (t[1] == 'D' || t[1] == 'd') && (t[2] == 'R' || t[2] == 'r')
      && (t[3] == 'O' || t[3] == 'o') && (t[4] == 'M' || t[4] == 'm')
  {
    if |d.deviceType| == 5 {
      forall i | 0 <= i < 5
        ensures Upper(d.deviceType[i]) == "CDROM"[i] <==>
                d.deviceType[i] == "CDROM"[i] || d.deviceType[i] == "cdrom"[i]
      {
        UpperIs(d.deviceType[i], i);
      }
      assert IsCdrom(d) <==>
        Upper(d.deviceType[0]) == 'C' && Upper(d.deviceType[1]) == 'D' && Upper(d.deviceType[2]) == 'R' &&
        Upper(d.deviceType[3]) == 'O' && Upper(d.deviceType[4]) == 'M';
    }
  }

  lemma UpperIs(c: char, i: nat)
    requires i < 5
    ensures Upper(c) == "CDROM"[i] <==> c == "CDROM"[i] || c == "cdrom"[i]
  {
  }

  function DiskUuid(d: SourceDisk): string {
    if d.vmDiskUuid != "" then d.vmDiskUuid else d.extId
  }

  /** The positions of the data disks among the VM's disks. */
  function DataIndices(disks: seq<SourceDisk>): (ix: seq<nat>)
    ensures forall k :: 0 <= k < |ix| ==> ix[k] < |disks|
  {
    if disks == [] then []
    else
      var n := |disks| - 1;
      DataIndices(disks[..n]) + (if IsCdrom(disks[n]) then [] else [n])
  }

  /** They are all of them, in order. */
  lemma {:induction false} DataIndicesMeaning(disks: seq<SourceDisk>)
    ensures forall k, l :: 0 <= k < l < |DataIndices(disks)| ==> DataIndices(disks)[k] < DataIndices(disks)[l]
    ensures forall i :: 0 <= i < |disks| ==> (i in DataIndices(disks) <==> !IsCdrom(disks[i]))
    decreases |disks|
  {
    if disks != [] {
      DataIndicesMeaning(disks[..|disks| - 1]);
    }
  }

  function DataDisks(disks: seq<SourceDisk>): (r: seq<SourceDisk>)
    ensures |r| == |DataIndices(disks)|
    ensures forall k :: 0 <= k < |r| ==> r[k] == disks[DataIndices(disks)[k]]
  {
    var ix := DataIndices(disks);
    seq(|ix|, k requires 0 <= k < |ix| => disks[ix[k]])
  }

  lemma DataIndicesGrow(disks: seq<SourceDisk>, i: nat)
    requires i < |disks|
    ensures DataIndices(disks[..i + 1]) == DataIndices(disks[..i]) + (if IsCdrom(disks[i]) then [] else [i])
  {
    assert disks[..i + 1][..i] == disks[..i];
  }

  method FilterDataDisks(disks: seq<SourceDisk>) returns (result: seq<SourceDisk>)
    ensures result == DataDisks(disks)
  {
    result := [];
    for i := 0 to |disks|
      invariant result == DataDisks(disks[..i])
    {
      DataIndicesGrow(disks, i);
      if !IsCdrom(disks[i]) {
        result := result + [disks[i]];
      }
    }
    assert disks[..|disks|] == disks;
  }

  // ----- Names -----

  function ShortId(id: string): string {
    if |id| > 8 then id[..8] else id
  }

  function BulkStem(migration: string, vmId: string): string {
    "vma-" + migration + "-" + ShortId(vmId)
  }

  function RoundStem(migration: string, vmId: string, round: RoundLabel): string {
    BulkStem(migration, vmId) + "-" + LabelText(round)
  }

  function ImageName(stem: string, k: nat): string {
    stem + "-disk-" + Numeral(k)
  }

  /** The name of the k-th DataVolume. */
  function DiskName(migration: string, vmId: string, k: nat): string {
    ImageName(BulkStem(migration, vmId), k)
  }

  /** Volumes are named after the position among all disks, CDROMs included. */
  function VolumeName(i: nat): string {
    "disk-" + Numeral(i)
  }

  function LabelText(round: RoundLabel): string {
    match round
    case PrecopyLabel(n) => "pc" + Numeral(n)
    case FinalLabel => "final"
  }

  function PodText(migration: string, vmId: string, name: PodName): string {
    "vma-" + ShortId(migration) + "-" + ShortId(vmId) + "-" + LabelText(name.round) + "-d" + Numeral(name.disk)
  }

  lemma SplitAtLastHyphen(a: string, x: string, b: string, y: string)
    requires '-' !in x && '-' !in y && a + "-" + x == b + "-" + y
    ensures a == b && x == y
  {
    FollowsLastHyphen(a, x);
    FollowsLastHyphen(b, y);
    var s := a + "-" + x;
    assert s[..|a|] == a;
    assert s[..|b|] == b;
  }

  lemma SameNumber(a: string, m: nat, b: string, n: nat)
    requires a + "-" + Numeral(m) == b + "-" + Numeral(n)
    ensures m == n && a == b
  {
    NumeralValue(m);
    NumeralValue(n);
    SplitAtLastHyphen(a, Numeral(m), b, Numeral(n));
  }

  /** Names keep the first eight characters of an id, or all of a shorter one. */
  lemma ShortIdsEqual(a: string, b: string)
    ensures ShortId(a) == ShortId(b) <==> if |a| >= 8 && |b| >= 8 then a[..8] == b[..8] else a == b
  {
    assert |a| == 8 ==> a[..8] == a;
    assert |b| == 8 ==> b[..8] == b;
  }

  lemma DiskNameParts(migration: string, a: string, m: nat, b: string, n: nat)
    ensures DiskName(migration, a, m) == DiskName(migration, b, n) <==> ShortId(a) == ShortId(b) && m == n
  {
    var p := "vma-" + migration + "-";
    var x, y := p + ShortId(a) + "-disk", p + ShortId(b) + "-disk";
    assert DiskName(migration, a, m) == x + "-" + Numeral(m);
    assert DiskName(migration, b, n) == y + "-" + Numeral(n);
    if DiskName(migration, a, m) == DiskName(migration, b, n) {
      SameNumber(x, m, y, n);
      assert x[|p|..|x| - 5] == ShortId(a);
      assert y[|p|..|y| - 5] == ShortId(b);
    }
  }

  /** Two VMs of one migration share a DataVolume name if and only if their 8-character id prefixes are equal. */
  lemma DiskNamesShared(migration: string, a: string, b: string)
    ensures (exists m: nat, n: nat :: DiskName(migration, a, m) == DiskName(migration, b, n)) <==>
            if |a| >= 8 && |b| >= 8 then a[..8] == b[..8] else a == b
  {
    ShortIdsEqual(a, b);
    if ShortId(a) == ShortId(b) {
      assert DiskName(migration, a, 0) == DiskName(migration, b, 0);
    }
    if m: nat, n: nat :| DiskName(migration, a, m) == DiskName(migration, b, n) {
      DiskNameParts(migration, a, m, b, n);
    }
  }

  /** Names as they are written, for ids of at least eight characters. */
  lemma NamesWrittenOut(migration: string, id: string, k: nat, n: nat)
    requires |id| >= 8 && |migration| >= 8
    ensures DiskName(migration, id, k) == "vma-" + migration + "-" + id[..8] + "-disk-" + Numeral(k)
    ensures ImageName(RoundStem(migration, id, PrecopyLabel(n)), k) ==
            "vma-" + migration + "-" + id[..8] + "-pc" + Numeral(n) + "-disk-" + Numeral(k)
    ensures ImageName(RoundStem(migration, id, FinalLabel), k) ==
            "vma-" + migration + "-" + id[..8] + "-final" + "-disk-" + Numeral(k)
    ensures VolumeName(k) == "disk-" + Numeral(k)
    ensures PodText(migration, id, PodName(PrecopyLabel(n), k)) ==
            "vma-" + migration[..8] + "-" + id[..8] + "-" + ("pc" + Numeral(n)) + "-d" + Numeral(k)
    ensures PodText(migration, id, PodName(FinalLabel, k)) ==
            "vma-" + migration[..8] + "-" + id[..8] + "-" + "final" + "-d" + Numeral(k)
  {
    assert |id| == 8 ==> id[..8] == id;
    assert |migration| == 8 ==> migration[..8] == migration;
    var stem := "vma-" + migration + "-" + id[..8];
    assert BulkStem(migration, id) == stem;
    assert stem + "-" + ("pc" + Numeral(n)) == stem + "-pc" + Numeral(n);
    assert stem + "-" + "final" == stem + "-final";
  }

  lemma LabelTextInjective(a: RoundLabel, b: RoundLabel)
    ensures LabelText(a) == LabelText(b) <==> a == b
    ensures '-' !in LabelText(a)
  {
    if a.PrecopyLabel? {
      NumeralValue(a.number);
      assert LabelText(a)[2..] == Numeral(a.number);
    }
    if b.PrecopyLabel? {
      NumeralValue(b.number);
      assert LabelText(b)[2..] == Numeral(b.number);
    }
  }

  /** The pod names of two VMs of one migration, taken apart. */
  lemma PodTextParts(migration: string, a: string, x: PodName, b: string, y: PodName)
    ensures PodText(migration, a, x) == PodText(migration, b, y) <==> ShortId(a) == ShortId(b) && x == y
  {
    var p := "vma-" + ShortId(migration) + "-";
    var u, v := "d" + Numeral(x.disk), "d" + Numeral(y.disk);
    var l, m := LabelText(x.round), LabelText(y.round);
    var f, g := p + ShortId(a), p + ShortId(b);
    assert PodText(migration, a, x) == (f + "-" + l) + "-" + u;
    assert PodText(migration, b, y) == (g + "-" + m) + "-" + v;
    LabelTextInjective(x.round, y.round);
    LabelTextInjective(y.round, x.round);
    NumeralValue(x.disk);
    NumeralValue(y.disk);
    if PodText(migration, a, x) == PodText(migration, b, y) {
      SplitAtLastHyphen(f + "-" + l, u, g + "-" + m, v);
      SplitAtLastHyphen(f, l, g, m);
      assert u[1..] == Numeral(x.disk) && v[1..] == Numeral(y.disk);
      assert f[|p|..] == ShortId(a) && g[|p|..] == ShortId(b);
    }
  }

  /** Within one VM a pod name belongs to one round and one disk. */
  lemma PodTextInjective(migration: string, vmId: string, a: PodName, b: PodName)
    ensures PodText(migration, vmId, a) == PodText(migration, vmId, b) <==> a == b
  {
    PodTextParts(migration, vmId, a, vmId, b);
  }

  /** Two VMs of one migration share a pod name if and only if their 8-character id prefixes are equal. */
  lemma PodNamesShared(migration: string, a: string, b: string)
    ensures (exists x: PodName, y: PodName :: PodText(migration, a, x) == PodText(migration, b, y)) <==>
            if |a| >= 8 && |b| >= 8 then a[..8] == b[..8] else a == b
  {
    ShortIdsEqual(a, b);
    if ShortId(a) == ShortId(b) {
      var x := PodName(FinalLabel, 0);
      PodTextParts(migration, a, x, b, x);
    }
    if x: PodName, y: PodName :| PodText(migration, a, x) == PodText(migration, b, y) {
      PodTextParts(migration, a, x, b, y);
    }
  }

  // ----- What is created for each disk -----

  /** An exported image: what it is called and which disk it was cut from. */
  datatype Image = Image(name: string, diskUuid: string)

  datatype Volume = Volume(name: string, claim: Option<string>)
  datatype TargetDisk = TargetDisk(name: string, bootFirst: bool)

  datatype PodSpec = PodSpec(name: string, claim: string, image: Image)

  /** Exports what is not yet recorded; it may stop early with an error. */
  method ExportDisks(stem: string, disks: seq<SourceDisk>, recorded: seq<Image>)
    returns (images: seq<Image>, failed: bool)
    requires forall k :: 0 <= k < |recorded| && k < |DataDisks(disks)| ==>
      recorded[k] == Image(ImageName(stem, k), DiskUuid(DataDisks(disks)[k]))
    ensures recorded <= images && (|images| > |recorded| ==> |images| <= |DataDisks(disks)|)
    ensures !failed ==> |images| >= |DataDisks(disks)|
    ensures forall k :: 0 <= k < |images| && k < |DataDisks(disks)| ==>
      images[k] == Image(ImageName(stem, k), DiskUuid(disks[DataIndices(disks)[k]]))
  {
    var dataDisks := FilterDataDisks(disks);
    images, failed := recorded, false;
    for i := 0 to |dataDisks|
      invariant recorded <= images && |images| >= i && (|images| > |recorded| ==> |images| <= i)
      invariant forall k :: 0 <= k < |images| && k < |dataDisks| ==>
        images[k] == Image(ImageName(stem, k), DiskUuid(dataDisks[k]))
    {
      if i >= |images| {
        failed := *;
        if failed {
          return;
        }
        images := images + [Image(ImageName(stem, i), DiskUuid(dataDisks[i]))];
      }
    }
    failed := false;
  }

  /** A DataVolume: the image it imports and the disk its storage mapping and size were looked up for. */
  datatype DvSpec = DvSpec(image: Image, disk: Option<SourceDisk>)

  /** Creation under a name that exists counts as success and changes nothing. */
  function CreateDataVolume(cluster: map<string, DvSpec>, name: string, dv: DvSpec): map<string, DvSpec> {
    if name in cluster then cluster else cluster[name := dv]
  }

  /** What the k-th DataVolume is created as. */
  function DvFor(images: seq<Image>, dataDisks: seq<SourceDisk>, k: nat): DvSpec
    requires k < |images|
  {
    DvSpec(images[k], if k < |dataDisks| then Some(dataDisks[k]) else None)
  }

  /** Creates the DataVolumes that are missing, one per image. */
  method CreateDataVolumes(migration: string, vmId: string, dataDisks: seq<SourceDisk>, images: seq<Image>,
                           recorded: seq<string>, cluster: map<string, DvSpec>)
    returns (names: seq<string>, cluster': map<string, DvSpec>, failed: bool)
    requires |recorded| <= |images| && forall k :: 0 <= k < |recorded| ==> recorded[k] == DiskName(migration, vmId, k)
    ensures recorded <= names && |names| <= |images| && (!failed ==> |names| == |images|)
    ensures forall k :: 0 <= k < |names| ==> names[k] == DiskName(migration, vmId, k)
    ensures forall k :: |recorded| <= k < |names| ==>
      names[k] in cluster' && (names[k] !in cluster ==> cluster'[names[k]] == DvFor(images, dataDisks, k))
    ensures forall name :: name in cluster ==> name in cluster' && cluster'[name] == cluster[name]
  {
    names, cluster', failed := recorded, cluster, false;
    NamesDiffer(migration, vmId, |images|);
    for i := 0 to |images|
      invariant recorded <= names && i <= |names| <= |images|
      invariant |names| > |recorded| ==> |names| == i
      invariant forall k :: 0 <= k < |names| ==> names[k] == DiskName(migration, vmId, k)
      invariant forall k :: |recorded| <= k < |names| ==>
        names[k] in cluster' && (names[k] !in cluster ==> cluster'[names[k]] == DvFor(images, dataDisks, k))
      invariant forall name :: name in cluster ==> name in cluster' && cluster'[name] == cluster[name]
      invariant forall k :: |names| <= k < |images| && DiskName(migration, vmId, k) !in cluster ==>
        DiskName(migration, vmId, k) !in cluster'
    {
      if i >= |names| {
        failed := *;
        if failed {
          return;
        }
        var name := DiskName(migration, vmId, i);
        cluster' := CreateDataVolume(cluster', name, DvFor(images, dataDisks, i));
        names := names + [name];
      }
    }
    failed := false;
  }

  /** One disk and one volume per data position, the k-th claiming the k-th PVC; only the first boots. */
  ghost predicate BuiltFor(ix: seq<nat>, pvcNames: seq<string>, bootDisk: bool, targets: seq<TargetDisk>,
                           volumes: seq<Volume>) {
    && |targets| == |volumes| == |ix|
    && forall k :: 0 <= k < |ix| ==>
         && volumes[k] == Volume(VolumeName(ix[k]), if k < |pvcNames| then Some(pvcNames[k]) else None)
         && targets[k] == TargetDisk(VolumeName(ix[k]), bootDisk && k == 0)
  }

  lemma BuildNext(ix: seq<nat>, i: nat, pvcNames: seq<string>, bootDisk: bool, targets: seq<TargetDisk>,
                  volumes: seq<Volume>)
    requires BuiltFor(ix, pvcNames, bootDisk, targets, volumes)
    ensures BuiltFor(ix + [i], pvcNames, bootDisk,
                     targets + [TargetDisk(VolumeName(i), bootDisk && |ix| == 0)],
                     volumes + [Volume(VolumeName(i), if |ix| < |pvcNames| then Some(pvcNames[|ix|]) else None)])
  {
  }

  /** The target VM's disks and volumes: CDROMs are skipped and do not use up a claim. */
  method BuildDisksAndVolumes(disks: seq<SourceDisk>, pvcNames: seq<string>, bootDisk: bool)
    returns (targets: seq<TargetDisk>, volumes: seq<Volume>)
    ensures BuiltFor(DataIndices(disks), pvcNames, bootDisk, targets, volumes)
  {
    targets, volumes := [], [];
    var bootOrderAssigned := false;
    var pvcIdx := 0;
    for i := 0 to |disks|
      invariant pvcIdx == |DataIndices(disks[..i])| && (bootOrderAssigned <==> bootDisk && pvcIdx > 0)
      invariant BuiltFor(DataIndices(disks[..i]), pvcNames, bootDisk, targets, volumes)
    {
      DataIndicesGrow(disks, i);
      if IsCdrom(disks[i]) {
        continue;
      }
      BuildNext(DataIndices(disks[..i]), i, pvcNames, bootDisk, targets, volumes);
      var name := VolumeName(i);
      var boot := bootDisk && !bootOrderAssigned;
      if boot {
        bootOrderAssigned := true;
      }
      targets := targets + [TargetDisk(name, boot)];
      volumes := volumes + [Volume(name, if pvcIdx < |pvcNames| then Some(pvcNames[pvcIdx]) else None)];
      pvcIdx := pvcIdx + 1;
    }
    assert disks[..|disks|] == disks;
  }

  /** The pod that copies the changes of the round's current disk. */
  function DeltaPod(migration: string, vmId: string, round: RoundLabel, k: nat,
                    names: seq<string>, images: seq<Image>): PodSpec
    requires k < |names| && k < |images|
  {
    PodSpec(PodText(migration, vmId, PodName(round, k)), names[k], images[k])
  }

  /** The k-th of everything belongs to the k-th data disk of the source. */
  ghost predicate Aligned(disks: seq<SourceDisk>, images: seq<Image>, names: seq<string>, cluster: map<string, DvSpec>,
                          volumes: seq<Volume>, pods: seq<PodSpec>) {
    var ix := DataIndices(disks);
    && |images| == |names| == |volumes| == |pods| == |ix|
    && (forall k :: 0 <= k < |ix| ==> AlignedAt(disks[ix[k]], ix[k], images[k], names[k], cluster, volumes[k], pods[k]))
    && (forall k, l :: 0 <= k < l < |ix| ==> names[k] != names[l])
  }

  /** Image, DataVolume, volume and pod of one source disk, tied together by the name of the DataVolume. */
  ghost predicate AlignedAt(disk: SourceDisk, position: nat, image: Image, name: string, cluster: map<string, DvSpec>,
                            volume: Volume, pod: PodSpec) {
    && image.diskUuid == (if disk.vmDiskUuid != "" then disk.vmDiskUuid else disk.extId)
    && name in cluster && cluster[name] == DvSpec(image, Some(disk))
    && volume == Volume(VolumeName(position), Some(name))
    && pod.claim == name && pod.image.diskUuid == DiskUuid(disk)
  }

  /**
   The whole chain, from any resumable point, for any mix of disks and CDROMs. The
   DataVolumes recorded so far are those of the recorded images, and no other
   DataVolume has a name of this VM.
   */
  method MigrateDisks(migration: string, vmId: string, disks: seq<SourceDisk>, boot: bool, round: RoundLabel,
                      doneImages: seq<Image>, doneNames: seq<string>, cluster: map<string, DvSpec>)
    returns (images: seq<Image>, names: seq<string>, cluster': map<string, DvSpec>,
             volumes: seq<Volume>, pods: seq<PodSpec>, failed: bool)
    requires |doneNames| <= |doneImages| <= |DataDisks(disks)|
    requires forall k :: 0 <= k < |doneImages| ==>
      doneImages[k] == Image(DiskName(migration, vmId, k), DiskUuid(DataDisks(disks)[k]))
    requires forall k :: 0 <= k < |doneNames| ==>
      && doneNames[k] == DiskName(migration, vmId, k)
      && doneNames[k] in cluster && cluster[doneNames[k]] == DvFor(doneImages, DataDisks(disks), k)
    requires forall k :: |doneNames| <= k < |DataDisks(disks)| ==> DiskName(migration, vmId, k) !in cluster
    ensures !failed ==> Aligned(disks, images, names, cluster', volumes, pods)
  {
    names, cluster', volumes, pods := doneNames, cluster, [], [];
    var dataDisks := FilterDataDisks(disks);
    images, failed := ExportDisks(BulkStem(migration, vmId), disks, doneImages);
    if failed {
      return;
    }
    names, cluster', failed := CreateDataVolumes(migration, vmId, dataDisks, images, doneNames, cluster);
    if failed {
      return;
    }
    var deltas;
    deltas, failed := ExportDisks(RoundStem(migration, vmId, round), disks, []);
    if failed {
      return;
    }
    pods := seq(|names|, k requires 0 <= k < |names| && k < |deltas| =>
      DeltaPod(migration, vmId, round, k, names, deltas));
    var targets;
    targets, volumes := BuildDisksAndVolumes(disks, names, boot);
    NamesDiffer(migration, vmId, |names|);
  }

  lemma NamesDiffer(migration: string, vmId: string, n: nat)
    ensures forall k, l :: 0 <= k < n && 0 <= l < n && k != l ==>
      DiskName(migration, vmId, k) != DiskName(migration, vmId, l)
  {
    forall k, l | 0 <= k < n && 0 <= l < n && k != l
      ensures DiskName(migration, vmId, k) != DiskName(migration, vmId, l)
    {
      DiskNameParts(migration, vmId, k, vmId, l);
    }
  }
}

/** What rotation by size means, without batching: files as a map from archive index to bytes, index 0
    being the current file, and a writer that appends every record directly. */
module RotationPolicy {

  import opened Options

  type Files = map<nat, string>

  datatype Limits = Limits(maxFileSize: nat, maxFiles: nat)

  function Lookup(files: Files, k: nat): Option<string> {
    if k in files then Some(files[k]) else None
  }

  /** The content of archive k after the shift: the next younger file if there is one; the oldest
      archive stays where no younger file replaces it. */
  function ShiftedSlot(files: Files, k: nat, maxFiles: nat): Option<string>
    requires 1 <= k <= maxFiles
  {
    if k - 1 in files then Some(files[k - 1])
    else if k == maxFiles then Lookup(files, k)
    else None
  }

  /** Slot k after a rotation: an empty current file, the shifted archives, and everything beyond the
      configured number of archives untouched. */
  function RotatedSlot(files: Files, k: nat, maxFiles: nat): Option<string> {
    if k == 0 then Some("") else if k <= maxFiles then ShiftedSlot(files, k, maxFiles) else Lookup(files, k)
  }

  function Rotated(files: Files, maxFiles: nat): (r: Files)
    ensures forall k: nat :: Lookup(r, k) == RotatedSlot(files, k, maxFiles)
  {
    map k | k in {0} + files.Keys + (set j | j in files.Keys :: j + 1) && RotatedSlot(files, k, maxFiles).Some?
      :: RotatedSlot(files, k, maxFiles).value
  }

  predicate MustRotate(current: string, maxFileSize: nat, record: string) {
    |current| + |record| > maxFileSize && |current| > 0
  }

  /** The writer without batching. */
  function DirectWrite(files: Files, limits: Limits, record: string): (r: Files)
    requires 0 in files
    ensures 0 in r
  {
    if MustRotate(files[0], limits.maxFileSize, record) then Rotated(files, limits.maxFiles)[0 := record]
    else files[0 := files[0] + record]
  }

  /** What a write means, in so many words: a record that fits, or finds an empty file, is appended;
      another one goes into a new file, and the old one becomes the first archive. */
  ghost predicate AppendedOrRotated(before: Files, after: Files, limits: Limits, record: string)
    requires 0 in before && 0 in after
  {
    var c := before[0];
    if c == "" || |c| + |record| <= limits.maxFileSize then
      after[0] == c + record && forall k: nat | k > 0 :: Lookup(after, k) == Lookup(before, k)
    else
      after[0] == record && (limits.maxFiles > 0 ==> Lookup(after, 1) == Some(c))
  }

  lemma WriteOrRotate(files: Files, limits: Limits, record: string)
    requires 0 in files
    ensures AppendedOrRotated(files, DirectWrite(files, limits, record), limits, record)
  {
    var rotated := Rotated(files, limits.maxFiles);
    assert Lookup(rotated, 1) == RotatedSlot(files, 1, limits.maxFiles);
  }

  function DirectRun(files: Files, limits: Limits, records: seq<string>): (r: Files)
    requires 0 in files
    ensures 0 in r
  {
    if records == [] then files
    else DirectWrite(DirectRun(files, limits, records[..|records| - 1]), limits, records[|records| - 1])
  }

  // ----- the files in the order of their age -----

  function Archives(files: Files, k: nat): seq<string> {
    if k == 0 then [] else (if k in files then [files[k]] else []) + Archives(files, k - 1)
  }

  /** Archives from the highest index to the lowest, then the current file. */
  function FileList(files: Files, maxFiles: nat): seq<string>
    requires 0 in files
  {
    Archives(files, maxFiles) + [files[0]]
  }

  /** A rotation overwrites the oldest archive only if every file has to move up. */
  predicate Overwrites(files: Files, maxFiles: nat) {
    maxFiles in files && (maxFiles == 0 || maxFiles - 1 in files)
  }

  /** Below the highest index, the shifted archives are the files one index lower. */
  lemma {:induction false} ShiftedArchives(files: Files, r: Files, k: nat, maxFiles: nat)
    requires 0 in files && 0 < k < maxFiles
    requires forall i: nat | 1 <= i <= k :: Lookup(r, i) == ShiftedSlot(files, i, maxFiles)
    ensures Archives(r, k) == Archives(files, k - 1) + [files[0]]
  {
    assert Lookup(r, k) == ShiftedSlot(files, k, maxFiles);
    if k > 1 {
      ShiftedArchives(files, r, k - 1, maxFiles);
    }
  }

  /** What is left of the archives after the shift, when there is more than one slot. */
  lemma ShiftedList(files: Files, r: Files, maxFiles: nat)
    requires 0 in files && 1 < maxFiles && r == Rotated(files, maxFiles)
    ensures Archives(r, maxFiles)
            == (if maxFiles - 1 in files then [files[maxFiles - 1]] else if maxFiles in files then [files[maxFiles]] else [])
               + (Archives(files, maxFiles - 2) + [files[0]])
  {
    assert Lookup(r, maxFiles) == ShiftedSlot(files, maxFiles, maxFiles);
    ShiftedArchives(files, r, maxFiles - 1, maxFiles);
  }

  lemma UnshiftedList(files: Files, maxFiles: nat)
    requires 0 in files && 1 < maxFiles
    ensures FileList(files, maxFiles)
            == (if maxFiles in files then [files[maxFiles]] else [])
               + ((if maxFiles - 1 in files then [files[maxFiles - 1]] else [])
                  + (Archives(files, maxFiles - 2) + [files[0]]))
  {
    assert Archives(files, maxFiles - 1)
        == (if maxFiles - 1 in files then [files[maxFiles - 1]] else []) + Archives(files, maxFiles - 2);
  }

  lemma OneArchive(files: Files, r: Files, k: nat)
    requires 0 in files && k == 1 && r == Rotated(files, k)
    ensures Archives(r, k) == [files[0]] && Archives(files, k) == if k in files then [files[k]] else []
  {
    assert Lookup(r, k) == RotatedSlot(files, k, k);
  }

  lemma ManyArchives(files: Files, r: Files, maxFiles: nat)
    requires 0 in files && 1 < maxFiles && r == Rotated(files, maxFiles)
    ensures var before := FileList(files, maxFiles);
            Archives(r, maxFiles) == if Overwrites(files, maxFiles) then before[1..] else before
  {
    ShiftedList(files, r, maxFiles);
    UnshiftedList(files, maxFiles);
    OneOfTwo(if maxFiles in files then [files[maxFiles]] else [],
             if maxFiles - 1 in files then [files[maxFiles - 1]] else [],
             Archives(files, maxFiles - 2) + [files[0]]);
  }

  lemma OneOfTwo(a: seq<string>, b: seq<string>, c: seq<string>)
    requires |a| <= 1 && |b| <= 1
    ensures (if b != [] then b else a) + c == if a != [] && b != [] then (a + (b + c))[1..] else a + (b + c)
  {
  }

  /** A rotation keeps the order of the files, opens a new one, and drops at most the oldest. */
  lemma RotationKeepsOrder(files: Files, maxFiles: nat)
    requires 0 in files
    ensures var before := FileList(files, maxFiles);
            FileList(Rotated(files, maxFiles), maxFiles)
            == (if Overwrites(files, maxFiles) then before[1..] else before) + [""]
  {
    var r := Rotated(files, maxFiles);
    assert Lookup(r, 0) == Some("");
    if maxFiles == 1 {
      OneArchive(files, r, maxFiles);
    } else if maxFiles > 1 {
      ManyArchives(files, r, maxFiles);
    }
  }

  // ----- everything ever written -----

  /** The same writer, if no file were ever dropped: the last file of the list is the current one. */
  function HistoryWrite(history: seq<string>, maxFileSize: nat, record: string): (h: seq<string>)
    requires history != []
    ensures h != []
  {
    var n := |history| - 1;
    if MustRotate(history[n], maxFileSize, record) then history + [record]
    else history[..n] + [history[n] + record]
  }

  function HistoryRun(history: seq<string>, maxFileSize: nat, records: seq<string>): (h: seq<string>)
    requires history != []
    ensures h != []
  {
    if records == [] then history
    else HistoryWrite(HistoryRun(history, maxFileSize, records[..|records| - 1]), maxFileSize, records[|records| - 1])
  }

  function Flatten(parts: seq<string>): string {
    if parts == [] then "" else Flatten(parts[..|parts| - 1]) + parts[|parts| - 1]
  }

  ghost predicate IsSuffix(s: seq<string>, t: seq<string>) {
    |s| <= |t| && s == t[|t| - |s|..]
  }

  lemma SuffixSnoc(s: seq<string>, t: seq<string>, x: string)
    requires IsSuffix(s, t)
    ensures IsSuffix(s + [x], t + [x])
  {
  }

  lemma SuffixTail(s: seq<string>, t: seq<string>)
    requires IsSuffix(s, t) && s != []
    ensures IsSuffix(s[1..], t)
  {
  }

  lemma SuffixLast(a: seq<string>, x: string, t: seq<string>, y: string)
    requires IsSuffix(a + [x], t)
    ensures t[|t| - 1] == x && IsSuffix(a + [y], t[..|t| - 1] + [y])
  {
    assert IsSuffix(a, t[..|t| - 1]);
    SuffixSnoc(a, t[..|t| - 1], y);
  }

  /** The file list after a write that rotates. */
  lemma RotatedList(files: Files, limits: Limits, record: string)
    requires 0 in files && MustRotate(files[0], limits.maxFileSize, record)
    ensures var list := FileList(files, limits.maxFiles);
            FileList(DirectWrite(files, limits, record), limits.maxFiles)
            == (if Overwrites(files, limits.maxFiles) then list[1..] else list) + [record]
  {
    var list, r := FileList(files, limits.maxFiles), Rotated(files, limits.maxFiles);
    var kept := if Overwrites(files, limits.maxFiles) then list[1..] else list;
    RotationKeepsOrder(files, limits.maxFiles);
    SameArchives(r, r[0 := record], limits.maxFiles);
    assert FileList(r, limits.maxFiles) == Archives(r, limits.maxFiles) + [r[0]] == kept + [""];
    assert Archives(r, limits.maxFiles) == (kept + [""])[..|kept|] == kept;
  }

  lemma WriteKeepsSuffix(files: Files, limits: Limits, history: seq<string>, record: string)
    requires 0 in files && history != [] && IsSuffix(FileList(files, limits.maxFiles), history)
    ensures IsSuffix(FileList(DirectWrite(files, limits, record), limits.maxFiles),
                     HistoryWrite(history, limits.maxFileSize, record))
  {
    var list := FileList(files, limits.maxFiles);
    SuffixLast(Archives(files, limits.maxFiles), files[0], history, files[0] + record);
    if MustRotate(files[0], limits.maxFileSize, record) {
      RotatedList(files, limits, record);
      SuffixTail(list, history);
      SuffixSnoc(if Overwrites(files, limits.maxFiles) then list[1..] else list, history, record);
    } else {
      SameArchives(files, files[0 := files[0] + record], limits.maxFiles);
    }
  }

  lemma {:induction false} SameArchives(a: Files, b: Files, k: nat)
    requires forall i: nat | 1 <= i <= k :: Lookup(a, i) == Lookup(b, i)
    ensures Archives(a, k) == Archives(b, k)
  {
    if k > 0 {
      assert Lookup(a, k) == Lookup(b, k);
      SameArchives(a, b, k - 1);
    }
  }

  /** For any starting archives, gaps included: the files present always form a suffix of everything
      ever written, cut only between files. */
  lemma {:induction false} FilesAreSuffixOfHistory(files: Files, limits: Limits, records: seq<string>)
    requires 0 in files
    ensures IsSuffix(FileList(DirectRun(files, limits, records), limits.maxFiles),
                     HistoryRun(FileList(files, limits.maxFiles), limits.maxFileSize, records))
  {
    if records != [] {
      var n := |records| - 1;
      FilesAreSuffixOfHistory(files, limits, records[..n]);
      WriteKeepsSuffix(DirectRun(files, limits, records[..n]), limits,
                       HistoryRun(FileList(files, limits.maxFiles), limits.maxFileSize, records[..n]), records[n]);
    }
  }

  lemma WriteAddsRecord(h: seq<string>, maxFileSize: nat, record: string)
    requires h != []
    ensures Flatten(HistoryWrite(h, maxFileSize, record)) == Flatten(h) + record
  {
    var n := |h| - 1;
    if MustRotate(h[n], maxFileSize, record) {
      assert (h + [record])[..|h|] == h;
    } else {
      assert (h[..n] + [h[n] + record])[..n] == h[..n];
      assert Flatten(h[..n]) + (h[n] + record) == Flatten(h[..n]) + h[n] + record;
    }
  }

  lemma Regroup(a: string, b: string, c: string)
    ensures a + b + c == a + (b + c)
  {
  }

  /** And that history is what was there, followed by every record. */
  lemma {:induction false} HistoryIsEverything(history: seq<string>, maxFileSize: nat, records: seq<string>)
    requires history != []
    ensures Flatten(HistoryRun(history, maxFileSize, records)) == Flatten(history) + Flatten(records)
  {
    if records != [] {
      var n := |records| - 1;
      var h := HistoryRun(history, maxFileSize, records[..n]);
      HistoryIsEverything(history, maxFileSize, records[..n]);
      WriteAddsRecord(h, maxFileSize, records[n]);
      Regroup(Flatten(history), Flatten(records[..n]), records[n]);
    }
  }

  // ----- from a truncated start -----

  /** No archive within the configured number, and an empty current file. */
  ghost predicate Truncated(files: Files, maxFiles: nat) {
    Lookup(files, 0) == Some("") && forall k: nat | 1 <= k <= maxFiles :: k !in files
  }

  /** Slot k holds the k-th most recent file of the history, as far as the history goes. */
  ghost predicate SlotExact(files: Files, history: seq<string>, k: nat) {
    Lookup(files, k) == if k < |history| then Some(history[|history| - 1 - k]) else None
  }

  lemma SlotStep(files: Files, h: seq<string>, limits: Limits, record: string, k: nat)
    requires 0 in files && h != [] && k <= limits.maxFiles
    requires SlotExact(files, h, 0) && SlotExact(files, h, k) && (k > 0 ==> SlotExact(files, h, k - 1))
    ensures SlotExact(DirectWrite(files, limits, record), HistoryWrite(h, limits.maxFileSize, record), k)
  {
    assert files[0] == h[|h| - 1];
    if MustRotate(files[0], limits.maxFileSize, record) {
      var r := Rotated(files, limits.maxFiles);
      assert Lookup(r, k) == RotatedSlot(files, k, limits.maxFiles);
    }
  }

  /** After any records, archive k is exactly the k-th most recently closed file for every k up to the
      number of rotations and of archives, and the other archives are absent. */
  lemma {:induction false} ArchivesAreExact(files: Files, limits: Limits, records: seq<string>, k: nat)
    requires Truncated(files, limits.maxFiles) && k <= limits.maxFiles
    ensures SlotExact(DirectRun(files, limits, records), HistoryRun([""], limits.maxFileSize, records), k)
    decreases |records|
  {
    if records == [] {
      assert k == 0 || k !in files;
    } else {
      var n := |records| - 1;
      var before, h := DirectRun(files, limits, records[..n]), HistoryRun([""], limits.maxFileSize, records[..n]);
      ArchivesAreExact(files, limits, records[..n], 0);
      ArchivesAreExact(files, limits, records[..n], k);
      if k > 0 { ArchivesAreExact(files, limits, records[..n], k - 1); }
      SlotStep(before, h, limits, records[n], k);
    }
  }

  /** How the records fall into files: never split, and a file that grew past the limit is one record. */
  function GroupWrite(groups: seq<seq<string>>, maxFileSize: nat, record: string): (g: seq<seq<string>>)
    requires groups != []
    ensures g != []
  {
    var n := |groups| - 1;
    if MustRotate(Flatten(groups[n]), maxFileSize, record) then groups + [[record]]
    else groups[..n] + [groups[n] + [record]]
  }

  function GroupRun(maxFileSize: nat, records: seq<string>): (g: seq<seq<string>>)
    ensures g != []
  {
    if records == [] then [[]]
    else GroupWrite(GroupRun(maxFileSize, records[..|records| - 1]), maxFileSize, records[|records| - 1])
  }

  function Join(groups: seq<seq<string>>): seq<string> {
    if groups == [] then [] else Join(groups[..|groups| - 1]) + groups[|groups| - 1]
  }

  ghost predicate GroupFits(group: seq<string>, maxFileSize: nat) {
    && (|Flatten(group)| <= maxFileSize || |group| == 1)
    && (Flatten(group) == "" ==> group == [])
  }

  lemma FlattenSnoc(parts: seq<string>, part: string)
    ensures Flatten(parts + [part]) == Flatten(parts) + part
  {
    assert (parts + [part])[..|parts|] == parts;
  }

  /** The files hold the groups, one each, and every group fits. */
  ghost predicate Grouped(h: seq<string>, groups: seq<seq<string>>, maxFileSize: nat) {
    |h| == |groups| && forall i | 0 <= i < |h| :: h[i] == Flatten(groups[i]) && GroupFits(groups[i], maxFileSize)
  }

  /** File i could not have taken the first record of the next one. */
  ghost predicate NeededAt(groups: seq<seq<string>>, i: int, maxFileSize: nat) {
    0 <= i && i + 1 < |groups| ==> groups[i + 1] != [] && |Flatten(groups[i])| + |groups[i + 1][0]| > maxFileSize
  }

  /** No file was closed before it had to be. */
  ghost predicate Needed(groups: seq<seq<string>>, maxFileSize: nat) {
    forall i :: NeededAt(groups, i, maxFileSize)
  }

  /** From a truncated start every file, current or archived or gone, is a run of whole records, in
      order, and is at most maxFileSize bytes long or consists of exactly one record; and no file was
      closed before the next record was too long for it. */
  lemma {:induction false} NoRecordIsSplit(maxFileSize: nat, records: seq<string>)
    requires forall i | 0 <= i < |records| :: records[i] != ""
    ensures Join(GroupRun(maxFileSize, records)) == records
    ensures Grouped(HistoryRun([""], maxFileSize, records), GroupRun(maxFileSize, records), maxFileSize)
    ensures Needed(GroupRun(maxFileSize, records), maxFileSize)
  {
    if records == [] {
      NoGroups(maxFileSize);
    } else {
      var n := |records| - 1;
      NoRecordIsSplit(maxFileSize, records[..n]);
      GroupStep(HistoryRun([""], maxFileSize, records[..n]), GroupRun(maxFileSize, records[..n]), maxFileSize, records[n]);
      JoinStep(GroupRun(maxFileSize, records[..n]), maxFileSize, records[n]);
      NeededStep(GroupRun(maxFileSize, records[..n]), maxFileSize, records[n]);
      assert records[..n] + [records[n]] == records;
    }
  }

  lemma NeededStep(groups: seq<seq<string>>, maxFileSize: nat, record: string)
    requires groups != [] && Needed(groups, maxFileSize)
    ensures Needed(GroupWrite(groups, maxFileSize, record), maxFileSize)
  {
    var n, g := |groups| - 1, GroupWrite(groups, maxFileSize, record);
    forall i ensures NeededAt(g, i, maxFileSize) {
      assert NeededAt(groups, i, maxFileSize);
      if i < n - 1 {
        assert 0 <= i ==> g[i] == groups[i] && g[i + 1] == groups[i + 1];
      } else if i == n - 1 && 0 <= i {
        assert g[i] == groups[i] && groups[n] != [] && g[n][0] == groups[n][0];
      }
    }
  }

  // ----- and there is no other way to group them -----

  /** A way to cut records into files: whole records, in order, each file within the limit or a single
      record, none closed before it had to be, and none empty unless there are no records. */
  ghost predicate Grouping(groups: seq<seq<string>>, maxFileSize: nat, records: seq<string>) {
    && groups != [] && Join(groups) == records
    && (forall i | 0 <= i < |groups| :: GroupFits(groups[i], maxFileSize))
    && Needed(groups, maxFileSize)
    && (records != [] ==> groups[0] != [])
  }

  /** Cutting the last record off a grouping leaves a grouping, and says where the record belongs. */
  lemma LastOfGrouping(groups: seq<seq<string>>, maxFileSize: nat, records: seq<string>)
    requires Grouping(groups, maxFileSize, records) && records != []
    requires forall i | 0 <= i < |records| :: records[i] != ""
    ensures groups[|groups| - 1] != []
    ensures var n := |groups| - 1; var last := groups[n];
            && last[|last| - 1] == records[|records| - 1]
            && Join(groups[..n] + [last[..|last| - 1]]) == records[..|records| - 1]
  {
    var n := |groups| - 1;
    assert NeededAt(groups, n - 1, maxFileSize);
    var last := groups[n];
    var m := |last| - 1;
    assert last == last[..m] + [last[m]];
    assert Join(groups) == Join(groups[..n]) + last;
    assert (groups[..n] + [last[..m]])[..n] == groups[..n];
    assert Join(groups[..n] + [last[..m]]) == Join(groups[..n]) + last[..m];
    assert records == (Join(groups[..n]) + last[..m]) + [last[m]];
  }

  lemma ShorterGroupFits(group: seq<string>, maxFileSize: nat, record: string)
    requires GroupFits(group + [record], maxFileSize) && record != "" && group != []
    requires forall i | 0 <= i < |group| :: group[i] != ""
    ensures GroupFits(group, maxFileSize) && !MustRotate(Flatten(group), maxFileSize, record)
  {
    FlattenSnoc(group, record);
    NonEmptyText(group);
  }

  lemma NonEmptyText(group: seq<string>)
    requires group != [] && forall i | 0 <= i < |group| :: group[i] != ""
    ensures Flatten(group) != ""
  {
  }

  lemma {:induction false} JoinMembers(groups: seq<seq<string>>, i: nat, j: nat)
    requires i < |groups| && j < |groups[i]|
    ensures groups[i][j] in Join(groups)
  {
    var n := |groups| - 1;
    if i < n {
      assert groups[..n][i] == groups[i];
      JoinMembers(groups[..n], i, j);
    }
  }

  /** Without its last record a grouping is one, with the last file one record shorter, or gone. */
  lemma ShorterGrouping(groups: seq<seq<string>>, maxFileSize: nat, records: seq<string>)
    requires Grouping(groups, maxFileSize, records) && records != []
    requires forall i | 0 <= i < |records| :: records[i] != ""
    requires |groups| == 1 || |groups[|groups| - 1]| > 1
    ensures var n := |groups| - 1; var last := groups[n];
            && last != [] && Grouping(groups[..n] + [last[..|last| - 1]], maxFileSize, records[..|records| - 1])
            && GroupWrite(groups[..n] + [last[..|last| - 1]], maxFileSize, records[|records| - 1]) == groups
  {
    LastOfGrouping(groups, maxFileSize, records);
    var n := |groups| - 1;
    var last := groups[n];
    var m := |last| - 1;
    var g := groups[..n] + [last[..m]];
    assert last == last[..m] + [last[m]];
    forall i | 0 <= i < m ensures last[i] != "" { JoinMembers(groups, n, i); }
    assert GroupFits(last, maxFileSize);
    if m > 0 { ShorterGroupFits(last[..m], maxFileSize, last[m]); }
    assert Flatten([]) == "";
    forall i | 0 <= i < |g| ensures GroupFits(g[i], maxFileSize) {
      if i < n { assert g[i] == groups[i]; }
    }
    ShorterIsNeeded(groups, maxFileSize);
    assert records[..|records| - 1] != [] ==> g[0] != [];
  }

  lemma ShorterIsNeeded(groups: seq<seq<string>>, maxFileSize: nat)
    requires groups != [] && Needed(groups, maxFileSize)
    requires groups[|groups| - 1] != [] && (|groups| == 1 || |groups[|groups| - 1]| > 1)
    ensures var n := |groups| - 1; var last := groups[n];
            Needed(groups[..n] + [last[..|last| - 1]], maxFileSize)
  {
    var n := |groups| - 1;
    var g := groups[..n] + [groups[n][..|groups[n]| - 1]];
    forall i ensures NeededAt(g, i, maxFileSize) {
      assert NeededAt(groups, i, maxFileSize);
      if 0 <= i && i + 1 < |g| { assert g[i] == groups[i] && g[i + 1][0] == groups[i + 1][0]; }
    }
  }

  lemma FewerGroups(groups: seq<seq<string>>, maxFileSize: nat, records: seq<string>)
    requires Grouping(groups, maxFileSize, records) && records != []
    requires forall i | 0 <= i < |records| :: records[i] != ""
    requires |groups| > 1 && |groups[|groups| - 1]| == 1
    ensures var n := |groups| - 1;
            && Grouping(groups[..n], maxFileSize, records[..|records| - 1])
            && GroupWrite(groups[..n], maxFileSize, records[|records| - 1]) == groups
  {
    LastOfGrouping(groups, maxFileSize, records);
    var n := |groups| - 1;
    var g := groups[..n];
    assert groups[n] == [groups[n][0]] && groups == g + [groups[n]];
    JoinWithEmpty(g);
    assert groups[n][..0] == [];
    PrefixNeeded(groups, maxFileSize);
    ClosedMustRotate(groups, maxFileSize);
    assert g[n - 1] == groups[n - 1];
  }

  lemma JoinWithEmpty(groups: seq<seq<string>>)
    ensures Join(groups + [[]]) == Join(groups)
  {
    assert (groups + [[]])[..|groups|] == groups;
  }

  lemma PrefixNeeded(groups: seq<seq<string>>, maxFileSize: nat)
    requires groups != [] && Needed(groups, maxFileSize)
    ensures Needed(groups[..|groups| - 1], maxFileSize)
  {
    var g := groups[..|groups| - 1];
    forall i ensures NeededAt(g, i, maxFileSize) {
      assert NeededAt(groups, i, maxFileSize);
    }
  }

  lemma ClosedMustRotate(groups: seq<seq<string>>, maxFileSize: nat)
    requires |groups| > 1 && Needed(groups, maxFileSize) && groups[0] != []
    requires forall x | x in Join(groups) :: x != ""
    ensures var n := |groups| - 1;
            groups[n] != [] && MustRotate(Flatten(groups[n - 1]), maxFileSize, groups[n][0])
  {
    var n := |groups| - 1;
    var closed := groups[n - 1];
    assert NeededAt(groups, n - 1, maxFileSize) && NeededAt(groups, n - 2, maxFileSize);
    forall j | 0 <= j < |closed| ensures closed[j] != "" { JoinMembers(groups, n - 1, j); }
    NonEmptyText(closed);
  }

  /** The grouping is the only one. */
  lemma {:induction false} GroupingIsUnique(groups: seq<seq<string>>, maxFileSize: nat, records: seq<string>)
    requires Grouping(groups, maxFileSize, records) && forall i | 0 <= i < |records| :: records[i] != ""
    ensures groups == GroupRun(maxFileSize, records)
    decreases |records|
  {
    if records == [] {
      OnlyEmptyGroup(groups, maxFileSize);
    } else {
      var n := |groups| - 1;
      LastOfGrouping(groups, maxFileSize, records);
      if n == 0 || |groups[n]| > 1 {
        ShorterGrouping(groups, maxFileSize, records);
        GroupingIsUnique(groups[..n] + [groups[n][..|groups[n]| - 1]], maxFileSize, records[..|records| - 1]);
      } else {
        FewerGroups(groups, maxFileSize, records);
        GroupingIsUnique(groups[..n], maxFileSize, records[..|records| - 1]);
      }
    }
  }

  lemma OnlyEmptyGroup(groups: seq<seq<string>>, maxFileSize: nat)
    requires groups != [] && Join(groups) == [] && Needed(groups, maxFileSize)
    ensures groups == [[]]
  {
    var n := |groups| - 1;
    assert Join(groups) == Join(groups[..n]) + groups[n];
    assert NeededAt(groups, n - 1, maxFileSize);
  }

  lemma NoGroups(maxFileSize: nat)
    ensures Join([[]]) == [] && Grouped([""], [[]], maxFileSize)
  {
    assert Join([[]]) == Join([[]][..0]) + [] == [];
    assert Flatten([]) == "";
  }

  lemma JoinStep(groups: seq<seq<string>>, maxFileSize: nat, record: string)
    requires groups != []
    ensures Join(GroupWrite(groups, maxFileSize, record)) == Join(groups) + [record]
  {
    var n := |groups| - 1;
    assert (groups + [[record]])[..|groups|] == groups;
    assert (groups[..n] + [groups[n] + [record]])[..n] == groups[..n];
    assert Join(groups[..n]) + (groups[n] + [record]) == Join(groups[..n]) + groups[n] + [record];
  }

  lemma GroupStep(h: seq<string>, groups: seq<seq<string>>, maxFileSize: nat, record: string)
    requires h != [] && groups != [] && record != "" && Grouped(h, groups, maxFileSize)
    ensures Grouped(HistoryWrite(h, maxFileSize, record), GroupWrite(groups, maxFileSize, record), maxFileSize)
  {
    var n := |h| - 1;
    var h', g' := HistoryWrite(h, maxFileSize, record), GroupWrite(groups, maxFileSize, record);
    assert h[n] == Flatten(groups[n]) && GroupFits(groups[n], maxFileSize);
    GroupGrows(groups[n], maxFileSize, record);
    GroupOfOne(maxFileSize, record);
    forall i | 0 <= i < |h'| ensures h'[i] == Flatten(g'[i]) && GroupFits(g'[i], maxFileSize) {
      if i < n { assert h'[i] == h[i] && g'[i] == groups[i]; }
    }
  }

  lemma GroupGrows(group: seq<string>, maxFileSize: nat, record: string)
    requires GroupFits(group, maxFileSize) && record != ""
    ensures Flatten(group + [record]) == Flatten(group) + record
    ensures !MustRotate(Flatten(group), maxFileSize, record) ==> GroupFits(group + [record], maxFileSize)
  {
    FlattenSnoc(group, record);
  }

  lemma GroupOfOne(maxFileSize: nat, record: string)
    requires record != ""
    ensures Flatten([record]) == record && GroupFits([record], maxFileSize)
  {
    FlattenSnoc([], record);
    assert [] + [record] == [record];
  }
}

/** RotatingFileSink: records are staged, written in batches, and the file is rotated by size.

    Files are a map from archive index to content, index 0 being the path itself; rename, remove,
    open, write and flush always succeed.  Bytes given to the stream reach the disk at the next flush
    or close. */
module RotatingSink {
  import opened Formatting
  import opened Options
  import opened RotationPolicy

  function NormalizeSize(value: nat): nat { if value == 0 then 1 else value }

  /** One call made by the logger's worker. */
  datatype Op = WriteOp(m: LogMessage, now: int) | FlushOp | FlushIfDueOp(now: int)

  class RotatingFileSink {
    const limits: Limits
    const maxBatchSize: nat
    const flushInterval: int
    const formatter: PatternFormatter
    // the disk, and the bytes the stream has not passed on
    var files: Files
    var unflushed: string
    var stagingBuffer: string
    var currentSize: nat
    // 0 stands for the clock's default time point, which the source uses for "not started"
    var batchStartedAt: int

    ghost predicate Valid()
      reads this, formatter
    {
      formatter.Valid() && 0 in files && currentSize == |files[0]| + |unflushed| && maxBatchSize > 0
    }

    /** The current file once everything written so far has reached it. */
    ghost function Content(): string
      requires 0 in files
      reads this
    {
      files[0] + unflushed + stagingBuffer
    }

    /** The files once everything written so far has reached them. */
    ghost function View(): Files
      requires 0 in files
      reads this
    {
      files[0 := Content()]
    }

    ghost function RecordOf(m: LogMessage): string
      reads formatter
    {
      formatter.Rendering(m) + "\n"
    }

    // ----- construction -----

    constructor (disk: Files, truncateOnOpen: bool, maxFileSize: nat, maxFiles: nat, maxBatchSize: nat,
                 flushInterval: int, formatter: PatternFormatter)
      requires formatter.Valid()
      ensures Valid() && this.formatter == formatter && files == View()
      ensures limits == Limits(NormalizeSize(maxFileSize), maxFiles) && this.flushInterval == flushInterval
      ensures this.maxBatchSize == if maxBatchSize == 0 then 1 else maxBatchSize
      ensures limits.maxFileSize == if maxFileSize == 0 then 1 else maxFileSize
      ensures truncateOnOpen ==> Truncated(files, maxFiles)
      ensures forall k: nat | (k > 0 && !truncateOnOpen) || k > maxFiles :: Lookup(files, k) == Lookup(disk, k)
      ensures !truncateOnOpen ==> files[0] == Lookup(disk, 0).GetOr("")
    {
      this.limits := Limits(NormalizeSize(maxFileSize), maxFiles);
      this.maxBatchSize := NormalizeSize(maxBatchSize);
      this.flushInterval := flushInterval;
      this.formatter := formatter;
      files := disk;
      unflushed := "";
      stagingBuffer := "";
      currentSize := 0;
      batchStartedAt := 0;
      new;
      ResetOnStartup(truncateOnOpen);
      assert Content() == files[0];
    }

    method ResetOnStartup(truncateOnOpen: bool)
      modifies this`files, this`currentSize
      ensures 0 in files && currentSize == |files[0]|
      ensures truncateOnOpen ==> Truncated(files, limits.maxFiles)
      ensures forall k: nat | (k > 0 && !truncateOnOpen) || k > limits.maxFiles :: Lookup(files, k) == Lookup(old(files), k)
      ensures !truncateOnOpen ==> files[0] == Lookup(old(files), 0).GetOr("")
    {
      if truncateOnOpen {
        RemoveIfExists(0);
        for index := 1 to limits.maxFiles + 1
          invariant forall k: nat | k < index :: k !in files
          invariant forall k: nat | k >= index :: Lookup(files, k) == Lookup(old(files), k)
        {
          RemoveIfExists(index);
        }
        currentSize := 0;
        OpenTruncated();
        return;
      }
      currentSize := if 0 in files then |files[0]| else 0;
      // opening for appending creates a missing file
      files := if 0 in files then files else files[0 := ""];
    }

    // ----- the files -----

    method RemoveIfExists(index: nat)
      modifies this`files
      ensures files == old(files) - {index}
    {
      files := files - {index};
    }

    method RenameIfExists(source: nat, destination: nat)
      requires source != destination
      modifies this`files
      ensures files == if source in old(files) then (old(files) - {source, destination})[destination := old(files)[source]]
                       else old(files)
    {
      if source !in files {
        return;
      }
      var content := files[source];
      RemoveIfExists(destination);
      files := (files - {source})[destination := content];
    }

    method OpenTruncated()
      modifies this`files
      ensures files == old(files)[0 := ""]
    {
      files := files[0 := ""];
    }

    /** Closes the stream, which passes its bytes on. */
    method Close()
      requires 0 in files
      modifies this`files, this`unflushed
      ensures files == old(files)[0 := old(files)[0] + old(unflushed)] && unflushed == ""
    {
      files := files[0 := files[0] + unflushed];
      unflushed := "";
    }

    /** The shift of the archives: from the highest index down, each file moves one index up. */
    method ShiftArchives()
      requires 0 in files && limits.maxFiles > 0
      modifies this`files
      ensures forall k: nat | k > 0 :: Lookup(files, k) == RotatedSlot(old(files), k, limits.maxFiles)
      ensures 0 !in files
    {
      var maxFiles := limits.maxFiles;
      var index := maxFiles;
      while index > 1
        invariant 1 <= index <= maxFiles
        invariant forall k: nat | k < index || k > maxFiles :: Lookup(files, k) == Lookup(old(files), k)
        invariant index < maxFiles ==> index !in files
        invariant index == maxFiles ==> files == old(files)
        invariant forall k: nat | index < k <= maxFiles :: Lookup(files, k) == ShiftedSlot(old(files), k, maxFiles)
      {
        assert Lookup(files, index - 1) == Lookup(old(files), index - 1);
        RenameIfExists(index - 1, index);
        index := index - 1;
      }
      assert Lookup(files, 0) == Lookup(old(files), 0);
      RenameIfExists(0, 1);
    }

    method RotateFiles()
      requires Valid() && stagingBuffer == ""
      modifies this`files, this`unflushed, this`currentSize
      ensures Valid() && unflushed == ""
      ensures files == Rotated(old(View()), limits.maxFiles)
    {
      Close();
      assert files[0] == old(Content());
      if limits.maxFiles == 0 {
        currentSize := 0;
        OpenTruncated();
        SameFiles(files, Rotated(old(View()), 0));
        return;
      }
      ShiftArchives();
      currentSize := 0;
      OpenTruncated();
      SameFiles(files, Rotated(old(View()), limits.maxFiles));
    }

    // ----- writing -----

    method DrainStagingBuffer(flushStream: bool)
      requires Valid()
      modifies this`files, this`unflushed, this`stagingBuffer, this`currentSize, this`batchStartedAt
      ensures Valid() && View() == old(View()) && stagingBuffer == ""
      ensures flushStream ==> files == View()
      ensures !flushStream ==> files == old(files)
    {
      if stagingBuffer != "" {
        unflushed := unflushed + stagingBuffer;
        currentSize := currentSize + |stagingBuffer|;
        stagingBuffer := "";
        batchStartedAt := 0;
      }
      assert Content() == old(Content());
      if flushStream {
        files := files[0 := files[0] + unflushed];
        unflushed := "";
        assert Content() == files[0] == old(Content());
      }
    }

    /** The record would push the current file over its limit. */
    ghost predicate Rotates(m: LogMessage)
      requires 0 in files
      reads this, formatter
    {
      MustRotate(Content(), limits.maxFileSize, RecordOf(m))
    }

    /** The staged bytes have waited for the flush interval. */
    predicate Overdue(now: int)
      reads this
    {
      stagingBuffer != "" && flushInterval > 0 && batchStartedAt != 0 && now - batchStartedAt >= flushInterval
    }

    /** The head of Write: makes room for a record that the current file cannot take. */
    method MakeRoom(record: string)
      requires Valid()
      modifies this
      ensures Valid()
      ensures View() == if old(MustRotate(Content(), limits.maxFileSize, record)) then old(Rotated(View(), limits.maxFiles))
                        else old(View())
      ensures old(MustRotate(Content(), limits.maxFileSize, record)) ==>
                Content() == "" == stagingBuffer && files == old(Rotated(View(), limits.maxFiles))
      ensures !old(MustRotate(Content(), limits.maxFileSize, record)) ==>
                && files == old(files) && unflushed == old(unflushed)
                && stagingBuffer == old(stagingBuffer) && batchStartedAt == old(batchStartedAt)
    {
      assert |Content()| == currentSize + |stagingBuffer|;
      if currentSize + |stagingBuffer| + |record| > limits.maxFileSize && currentSize + |stagingBuffer| > 0 {
        DrainStagingBuffer(true);
        RotateFiles();
        assert Lookup(files, 0) == Some("") && Content() == "";
      }
    }

    /** The tail of Write: stages the record, and drains if the batch is full or has waited too long. */
    method Stage(record: string, now: int)
      requires Valid()
      modifies this
      ensures Valid() && View() == old(View())[0 := old(Content()) + record]
      ensures stagingBuffer == if old(Overdue(now)) || |old(stagingBuffer) + record| >= maxBatchSize then ""
                               else old(stagingBuffer) + record
      ensures stagingBuffer != "" ==> batchStartedAt == if old(stagingBuffer) == "" then now else old(batchStartedAt)
      ensures files == if old(Overdue(now)) then View() else old(files)
      ensures !Overdue(now)
    {
      ghost var before, view := Content(), View();
      if stagingBuffer == "" {
        batchStartedAt := now;
      }
      stagingBuffer := stagingBuffer + record;
      assert Content() == before + record && View() == view[0 := before + record];

      var flushForSize := |stagingBuffer| >= maxBatchSize;
      var flushForInterval := flushInterval > 0 && batchStartedAt != 0 && now - batchStartedAt >= flushInterval;
      if flushForSize || flushForInterval {
        DrainStagingBuffer(flushForInterval);
      }
    }

    method FormatRecord(m: LogMessage) returns (record: string)
      requires Valid()
      ensures record == RecordOf(m)
    {
      record := formatter.FormatTo("", m);
      record := record + "\n";
    }

    /** Whatever is drained and whenever, the files to come are those of the writer without batching.
        The record stays staged exactly as long as the batch is neither full nor overdue; and the disk
        changes exactly by a rotation, or when a batch became overdue and is flushed. */
    method Write(m: LogMessage, now: int)
      requires Valid()
      modifies this
      ensures Valid() && View() == DirectWrite(old(View()), limits, old(RecordOf(m)))
      ensures AppendedOrRotated(old(View()), View(), limits, old(RecordOf(m)))
      ensures var staged := old(if Rotates(m) then "" else stagingBuffer) + old(RecordOf(m));
              stagingBuffer == if old(Overdue(now) && !Rotates(m)) || |staged| >= maxBatchSize then "" else staged
      ensures files == if old(Rotates(m)) then old(Rotated(View(), limits.maxFiles))
                       else if old(Overdue(now)) then View()
                       else old(files)
      ensures stagingBuffer != "" ==>
                batchStartedAt == if old(stagingBuffer == "" || Rotates(m)) then now else old(batchStartedAt)
      ensures !Overdue(now)
    {
      var formatted := FormatRecord(m);
      WriteOrRotate(View(), limits, formatted);
      MakeRoom(formatted);
      assert Content() == "" ==> Content() + formatted == formatted;
      Stage(formatted, now);
    }

    method Flush()
      requires Valid()
      modifies this
      ensures Valid() && View() == old(View()) && files == View()
    {
      DrainStagingBuffer(true);
    }

    /** The first instant at which the staged bytes are overdue; None, which stands for the largest time
        point, if they will never be. */
    method NextAutoFlushTime() returns (deadline: Option<int>)
      ensures deadline.Some? ==> forall now :: Overdue(now) <==> now >= deadline.value
      ensures deadline.None? ==> forall now :: !Overdue(now)
    {
      if stagingBuffer == "" || flushInterval <= 0 || batchStartedAt == 0 {
        return None;
      }
      return Some(batchStartedAt + flushInterval);
    }

    method FlushIfDue(now: int) returns (flushed: bool)
      requires Valid()
      modifies this
      ensures Valid() && View() == old(View()) && (flushed ==> files == View())
      ensures flushed <==> old(Overdue(now))
      ensures !flushed ==>
                && files == old(files) && unflushed == old(unflushed) && stagingBuffer == old(stagingBuffer)
                && batchStartedAt == old(batchStartedAt)
    {
      var deadline := NextAutoFlushTime();
      assert Overdue(now) <==> deadline.Some? && now >= deadline.value;
      if deadline.None? || now < deadline.value {
        return false;
      }
      DrainStagingBuffer(true);
      return true;
    }

    // ----- whole runs -----

    ghost function RecordsOf(ops: seq<Op>): seq<string>
      reads formatter
    {
      if ops == [] then []
      else RecordsOf(ops[..|ops| - 1])
           + (match ops[|ops| - 1] case WriteOp(m, _) => [RecordOf(m)] case _ => [])
    }

    /** Any sequence of calls, with any clock readings, followed by a flush: the files on disk are
        those of the writer without batching. */
    method Serve(ops: seq<Op>)
      requires Valid()
      modifies this
      ensures Valid()
      ensures files == View() == DirectRun(old(View()), limits, old(RecordsOf(ops)))
    {
      for i := 0 to |ops|
        invariant Valid()
        invariant View() == DirectRun(old(View()), limits, RecordsOf(ops[..i]))
      {
        ghost var before := RecordsOf(ops[..i]);
        assert ops[..i + 1][..i] == ops[..i];
        assert ops[i].WriteOp? ==> RecordsOf(ops[..i + 1]) == before + [RecordOf(ops[i].m)];
        assert ops[i].WriteOp? ==> RecordsOf(ops[..i + 1])[..|before|] == before;
        assert !ops[i].WriteOp? ==> RecordsOf(ops[..i + 1]) == before;
        match ops[i] {
          case WriteOp(m, now) => Write(m, now);
          case FlushOp => Flush();
          case FlushIfDueOp(now) => var _ := FlushIfDue(now);
        }
      }
      assert ops[..|ops|] == ops;
      Flush();
    }
  }

  lemma SameFiles(a: Files, b: Files)
    requires forall k: nat :: Lookup(a, k) == Lookup(b, k)
    ensures a == b
  {
    forall k: nat ensures k in a <==> k in b {
      assert Lookup(a, k) == Lookup(b, k);
    }
    forall k: nat | k in a ensures a[k] == b[k] {
      assert Lookup(a, k) == Lookup(b, k);
    }
  }

  lemma {:induction false} RecordsAreLines(sink: RotatingFileSink, ops: seq<Op>)
    ensures forall i | 0 <= i < |sink.RecordsOf(ops)| :: sink.RecordsOf(ops)[i] != ""
  {
    if ops != [] { RecordsAreLines(sink, ops[..|ops| - 1]); }
  }

  /** Slot k holds the whole records of the k-th last group, within the limit unless it is one record. */
  ghost predicate SlotHolds(files: Files, groups: seq<seq<string>>, k: nat, maxFileSize: nat) {
    && (k in files <==> k < |groups|)
    && (k < |groups| ==> var group := groups[|groups| - 1 - k]; files[k] == Flatten(group) && GroupFits(group, maxFileSize))
  }

  /** From a truncated start, whatever is called in whatever order: after the last flush, archive k on
      the disk is exactly the k-th most recently closed file of the unbatched history, for every k up
      to the number of rotations and of archives, and the other archives are absent; and the files
      cut the sequence of all records, in order, into groups of whole records that fit, none of them
      closed before the next record was too long for it. */
  method TruncatedSession(disk: Files, maxFileSize: nat, maxFiles: nat, maxBatchSize: nat, flushInterval: int,
                          formatter: PatternFormatter, ops: seq<Op>)
    returns (sink: RotatingFileSink, ghost groups: seq<seq<string>>)
    requires formatter.Valid()
    ensures sink.formatter == formatter
    ensures forall k: nat | k <= maxFiles ::
              SlotExact(sink.files, HistoryRun([""], NormalizeSize(maxFileSize), sink.RecordsOf(ops)), k)
    ensures Join(groups) == sink.RecordsOf(ops)
    ensures forall k: nat | k <= maxFiles :: SlotHolds(sink.files, groups, k, NormalizeSize(maxFileSize))
    ensures Needed(groups, NormalizeSize(maxFileSize))
  {
    sink := new RotatingFileSink(disk, true, maxFileSize, maxFiles, maxBatchSize, flushInterval, formatter);
    ghost var start := sink.files;
    sink.Serve(ops);
    ghost var records, limit := sink.RecordsOf(ops), NormalizeSize(maxFileSize);
    RecordsAreLines(sink, ops);
    groups := GroupRun(limit, records);
    SessionFiles(start, sink.limits, records);
  }

  lemma SessionFiles(start: Files, limits: Limits, records: seq<string>)
    requires Truncated(start, limits.maxFiles) && forall i | 0 <= i < |records| :: records[i] != ""
    ensures Join(GroupRun(limits.maxFileSize, records)) == records
    ensures Needed(GroupRun(limits.maxFileSize, records), limits.maxFileSize)
    ensures forall k: nat | k <= limits.maxFiles ::
              && SlotExact(DirectRun(start, limits, records), HistoryRun([""], limits.maxFileSize, records), k)
              && SlotHolds(DirectRun(start, limits, records), GroupRun(limits.maxFileSize, records), k, limits.maxFileSize)
  {
    NoRecordIsSplit(limits.maxFileSize, records);
    forall k: nat | k <= limits.maxFiles
      ensures SlotExact(DirectRun(start, limits, records), HistoryRun([""], limits.maxFileSize, records), k)
      ensures SlotHolds(DirectRun(start, limits, records), GroupRun(limits.maxFileSize, records), k, limits.maxFileSize)
    {
      ArchivesAreExact(start, limits, records, k);
      ExactHolds(DirectRun(start, limits, records), HistoryRun([""], limits.maxFileSize, records),
                 GroupRun(limits.maxFileSize, records), k, limits.maxFileSize);
    }
  }

  lemma ExactHolds(files: Files, h: seq<string>, groups: seq<seq<string>>, k: nat, maxFileSize: nat)
    requires SlotExact(files, h, k) && Grouped(h, groups, maxFileSize)
    ensures SlotHolds(files, groups, k, maxFileSize)
  {
  }
}

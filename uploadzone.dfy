// The knowledge-base upload dialog (components/knowledge-base/UploadZone.tsx): a queue of
// files that are pending, uploading, stored or failed. Each interval callback of an upload
// is one Tick; the stored token and each server answer are parameters. Entry ids come
// from Date.now() and Math.random(), so they are parameters taken to be distinct.
module UploadQueue {
  import opened Common
  import opened Text
  import opened Store

  const ACCEPTED_EXTENSIONS: seq<string> := [".txt", ".pdf", ".docx", ".xlsx"]
  const UPLOAD_FAILED: string := "Upload failed"

  datatype Status = Pending | Uploading | Stored | Failed(message: string)

  datatype Entry = Entry(id: string, fileName: string, status: Status, progress: int)

  /** A file from the picker or a drop, with the id handleFiles gives it. */
  datatype PickedFile = PickedFile(id: string, name: string)

  /** The answer to one POST /api/documents: stored, or refused with the server's message if any. */
  datatype UploadAnswer = Accepted | Refused(message: Option<string>)

  // ---------------------------------------------------------------- handleFiles

  function EndsWithAny(s: string, suffixes: seq<string>): (r: bool)
    ensures r <==> exists k :: 0 <= k < |suffixes| && EndsWith(s, suffixes[k])
  {
    if |suffixes| == 0 then false
    else EndsWith(s, suffixes[0]) || EndsWithAny(s, suffixes[1..])
  }

  /** `acceptedTypes.some(ext => name.toLowerCase().endsWith(ext))`. */
  predicate IsAccepted(name: string)
  {
    EndsWithAny(ToLower(name), ACCEPTED_EXTENSIONS)
  }

  /** The extension test ignores case: a name is accepted exactly when its lower-cased form is. */
  lemma AcceptanceIgnoresCase(name: string)
    ensures IsAccepted(name) <==> IsAccepted(ToLower(name))
  {
    ToLowerIdempotent(name);
  }

  /** The accepted files as pending entries at progress 0, in the order given. */
  function Queued(files: seq<PickedFile>): (r: seq<Entry>)
    ensures |r| <= |files|
    ensures forall i :: 0 <= i < |r| ==> r[i].status == Pending && r[i].progress == 0 && IsAccepted(r[i].fileName)
  {
    if |files| == 0 then []
    else
      var f := files[|files| - 1];
      Queued(files[..|files| - 1]) + (if IsAccepted(f.name) then [Entry(f.id, f.name, Pending, 0)] else [])
  }

  /** A file is queued exactly when its name is accepted. */
  lemma {:induction false} QueuedNames(files: seq<PickedFile>, id: string, name: string)
    ensures Entry(id, name, Pending, 0) in Queued(files) <==> PickedFile(id, name) in files && IsAccepted(name)
  {
    if |files| > 0 {
      var init := files[..|files| - 1];
      QueuedNames(init, id, name);
      assert files == init + [files[|files| - 1]];
    }
  }

  predicate UniqueIds(es: seq<Entry>)
  {
    forall i, j :: 0 <= i < j < |es| ==> es[i].id != es[j].id
  }

  /** What each status says about the progress bar. */
  predicate WellFormed(e: Entry)
  {
    match e.status
    case Pending => e.progress == 0
    case Uploading => 10 <= e.progress <= 90
    case Stored => e.progress == 100
    case Failed(_) => e.progress == 0
  }

  // ---------------------------------------------------------------- uploads

  /** One interval callback: `Math.min(progress + 10, 90)`. */
  function NextProgress(p: int): (r: int)
    ensures r <= 90
    ensures p < 90 ==> r > p
  {
    if p + 10 <= 90 then p + 10 else 90
  }

  /** The closure's counter after k callbacks. */
  function ProgressAfter(k: nat): int
  {
    if k == 0 then 0 else NextProgress(ProgressAfter(k - 1))
  }

  /** The bar climbs 10 per callback from 0 and stops at 90 until the answer arrives. */
  lemma {:induction false} ProgressAfterTicks(k: nat)
    ensures ProgressAfter(k) == if 10 * k <= 90 then 10 * k else 90
  {
    if k > 0 {
      ProgressAfterTicks(k - 1);
    }
  }

  /** `prev.map(f => f.id === fileId ? { ...f, status, progress } : f)`. */
  function Settle(es: seq<Entry>, id: string, status: Status, progress: int): (r: seq<Entry>)
    ensures |r| == |es|
    ensures forall i :: 0 <= i < |es| ==>
              r[i] == if es[i].id == id then es[i].(status := status, progress := progress) else es[i]
  {
    seq(|es|, (i: int) requires 0 <= i < |es| => if es[i].id == id then es[i].(status := status, progress := progress) else es[i])
  }

  /** A later edit of the same entry overrides an earlier one. */
  lemma SettleTwice(es: seq<Entry>, id: string, s1: Status, p1: int, s2: Status, p2: int)
    ensures Settle(Settle(es, id, s1, p1), id, s2, p2) == Settle(es, id, s2, p2)
  {
  }

  /** With distinct ids, an edit by id is an edit of one position. */
  lemma SettleAt(es: seq<Entry>, i: nat, status: Status, progress: int)
    requires UniqueIds(es) && i < |es|
    ensures Settle(es, es[i].id, status, progress) == es[i := es[i].(status := status, progress := progress)]
  {
  }

  /** The final state of an entry after its upload: stored at 100, or failed at 0 with a message. */
  function FinalStatus(answer: UploadAnswer): (s: Status)
    ensures s.Stored? <==> answer.Accepted?
    ensures s.Failed? ==> s.message != ""
    ensures answer.Refused? && Present(answer.message) ==> s == Failed(answer.message.value)
  {
    match answer
    case Accepted => Stored
    case Refused(m) => Failed(if Present(m) then m.value else UPLOAD_FAILED)
  }

  function FinalProgress(answer: UploadAnswer): int
  {
    if answer.Accepted? then 100 else 0
  }

  function Finished(e: Entry, answer: UploadAnswer): (r: Entry)
    ensures WellFormed(r) && r.id == e.id && r.fileName == e.fileName
  {
    e.(status := FinalStatus(answer), progress := FinalProgress(answer))
  }

  /**
   * One entry after handleDone's loop: a pending entry is finished by its answer when a
   * token is stored; without one the upload throws before touching it; others are skipped.
   */
  function Attempted(e: Entry, token: Option<string>, answer: UploadAnswer): Entry
  {
    if e.status == Pending && Present(token) then Finished(e, answer) else e
  }

  /** The whole list after the loop has visited its first `k` entries. */
  function AttemptedUpTo(es: seq<Entry>, k: nat, token: Option<string>, answers: seq<UploadAnswer>): (r: seq<Entry>)
    requires |answers| == |es|
    ensures |r| == |es|
  {
    seq(|es|, (j: int) requires 0 <= j < |es| => if j < k then Attempted(es[j], token, answers[j]) else es[j])
  }

  /**
   * After a call with a token, no entry is pending any more, so the next handleDone
   * attempts nothing and closes the dialog even when entries failed.
   */
  lemma AttemptedLeavesNothingPending(es: seq<Entry>, token: Option<string>, answers: seq<UploadAnswer>)
    requires |answers| == |es| && Present(token)
    ensures forall j :: 0 <= j < |es| ==> AttemptedUpTo(es, |es|, token, answers)[j].status != Pending
  {
  }

  function EntryWithId(id: string): Entry -> bool
  {
    (e: Entry) => e.id == id
  }

  lemma {:induction false} WhereKeepsUnique(es: seq<Entry>, p: Entry -> bool)
    requires UniqueIds(es)
    ensures UniqueIds(Where(es, p))
  {
    if |es| > 0 {
      var init := es[..|es| - 1];
      WhereKeepsUnique(init, p);
      var w := Where(init, p);
      forall i | 0 <= i < |w| ensures w[i].id != es[|es| - 1].id {
        var k :| 0 <= k < |init| && init[k] == w[i];
      }
    }
  }

  class UploadDialog {
    var entries: seq<Entry>
    var open: bool

    predicate Valid()
      reads this
    {
      UniqueIds(entries) && forall i :: 0 <= i < |entries| ==> WellFormed(entries[i])
    }

    constructor (open: bool)
      ensures entries == [] && this.open == open && Valid()
    {
      entries := [];
      this.open := open;
    }

    /**
     * handleFiles: the accepted files are appended as pending entries after the existing
     * ones; `warned` is the 'Invalid files' toast, shown when any file was dropped.
     */
    method HandleFiles(files: seq<PickedFile>) returns (warned: bool)
      requires Valid() && UniqueIds(entries + Queued(files))
      modifies this
      ensures entries == old(entries) + Queued(files) && open == old(open)
      ensures warned <==> |Queued(files)| != |files|
      ensures Valid()
    {
      var queued := Queued(files);
      entries := entries + queued;
      warned := |queued| != |files|;
    }

    /** One interval callback of the upload of `id`: the entry is uploading at the next progress. */
    method Tick(id: string, progress: int) returns (next: int)
      requires Valid() && 0 <= progress <= 90
      modifies this
      ensures next == NextProgress(progress) && 10 <= next <= 90
      ensures entries == Settle(old(entries), id, Uploading, next) && open == old(open)
      ensures Valid()
    {
      next := NextProgress(progress);
      entries := Settle(entries, id, Uploading, next);
    }

    /**
     * uploadFileToBackend: without a token it throws and leaves the entry as it is;
     * otherwise `ticks` callbacks run before the answer, which finishes the entry.
     */
    method Upload(id: string, token: Option<string>, ticks: nat, answer: UploadAnswer) returns (ok: bool)
      requires Valid()
      modifies this
      ensures ok <==> Present(token) && answer.Accepted?
      ensures !Present(token) ==> entries == old(entries)
      ensures Present(token) ==> entries == Settle(old(entries), id, FinalStatus(answer), FinalProgress(answer))
      ensures open == old(open) && Valid()
    {
      if !Present(token) {
        return false;
      }
      var progress := 0;
      var k := 0;
      while k < ticks
        invariant 0 <= k <= ticks && Valid() && open == old(open)
        invariant progress == ProgressAfter(k) && 0 <= progress <= 90
        invariant k == 0 ==> entries == old(entries)
        invariant k > 0 ==> entries == Settle(old(entries), id, Uploading, progress)
      {
        progress := Tick(id, progress);
        if k > 0 {
          SettleTwice(old(entries), id, Uploading, ProgressAfter(k), Uploading, progress);
        }
        k := k + 1;
      }
      if k > 0 {
        SettleTwice(old(entries), id, Uploading, progress, FinalStatus(answer), FinalProgress(answer));
      }
      entries := Settle(entries, id, FinalStatus(answer), FinalProgress(answer));
      ok := answer.Accepted?;
    }

    /**
     * handleDone: a no-op while an entry is uploading. Otherwise it uploads the pending
     * entries one after the other in list order, and clears the list and closes the
     * dialog only when none of those uploads failed.
     */
    method HandleDone(token: Option<string>, ticks: seq<nat>, answers: seq<UploadAnswer>)
      returns (ran: bool, allSuccessful: bool)
      requires Valid() && |ticks| == |entries| && |answers| == |entries|
      modifies this
      ensures ran <==> forall i :: 0 <= i < |old(entries)| ==> old(entries)[i].status != Uploading
      ensures !ran ==> entries == old(entries) && open == old(open)
      ensures ran ==> (allSuccessful <==>
                         forall i :: 0 <= i < |old(entries)| && old(entries)[i].status == Pending ==>
                                       Present(token) && answers[i].Accepted?)
      ensures ran && allSuccessful ==> entries == [] && !open
      ensures ran && !allSuccessful ==>
                entries == AttemptedUpTo(old(entries), |old(entries)|, token, answers) && open == old(open)
      ensures Valid()
    {
      if exists i :: 0 <= i < |entries| && entries[i].status == Uploading {
        return false, false;
      }
      ran := true;
      var snapshot := entries;
      allSuccessful := true;
      var i := 0;
      while i < |snapshot|
        invariant 0 <= i <= |snapshot| && Valid() && open == old(open)
        invariant entries == AttemptedUpTo(snapshot, i, token, answers)
        invariant allSuccessful <==>
                    forall j :: 0 <= j < i && snapshot[j].status == Pending ==> Present(token) && answers[j].Accepted?
      {
        if snapshot[i].status == Pending {
          assert entries[i] == snapshot[i];
          SettleAt(entries, i, FinalStatus(answers[i]), FinalProgress(answers[i]));
          var ok := Upload(snapshot[i].id, token, ticks[i], answers[i]);
          if !ok {
            allSuccessful := false;
          }
        }
        assert entries == AttemptedUpTo(snapshot, i + 1, token, answers);
        i := i + 1;
      }
      if allSuccessful {
        entries := [];
        open := false;
      }
    }

    /** removeFile: exactly the entries with that id leave the list, the rest keep their order. */
    method RemoveFile(id: string)
      requires Valid()
      modifies this
      ensures entries == Without(old(entries), EntryWithId(id)) && open == old(open)
      ensures Valid()
    {
      WhereKeepsUnique(entries, Not(EntryWithId(id)));
      entries := Without(entries, EntryWithId(id));
    }

    /** handleClose: the list is emptied and the dialog closed, with nothing uploaded. */
    method HandleClose()
      modifies this
      ensures entries == [] && !open && Valid()
    {
      entries := [];
      open := false;
    }
  }
}

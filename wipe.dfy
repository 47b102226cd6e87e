/**
 * The wipe page (app/routes/wipe.tsx): it lists the stored analysis records,
 * deletes one record together with its two files, or deletes every listed
 * record's files and then empties the whole key-value store. The browser's
 * `confirm` answer and how each store call turns out are inputs.
 */
module Wipe {
  import opened Wrappers
  import opened Puter

  const DeleteFailure: string := "An unexpected error occurred. Please try again."
  const DeleteAllFailure: string := "Failed to delete all resumes. Please try again."

  /** `rs` is what a listing of the `resume:` entries of `kv` shows, in the listing's order. */
  ghost predicate Shows(rs: seq<Record>, kv: map<string, Record>) {
    exists items: seq<KvItem> :: IsResumeListing(items, kv) && rs == ValuesOf(items)
  }

  /**
   * What `loadResumes` leaves in `resumes`, given what was there before and
   * how `kv.list` turned out: unchanged when the call throws, empty when it
   * answers with no list, and otherwise the listing of `kv`.
   */
  ghost predicate Reloaded(before: seq<Record>, after: seq<Record>, error: Option<Thrown>, absent: bool, kv: map<string, Record>) {
    if error.Some? then after == before
    else if absent then after == []
    else Shows(after, kv)
  }

  /** Every record shown is stored under a `resume:` key, and every record so stored is shown. */
  lemma ShowsExactlyTheStoredRecords(rs: seq<Record>, kv: map<string, Record>)
    requires Shows(rs, kv)
    ensures forall i :: 0 <= i < |rs| ==> exists k :: k in kv && IsResumeKey(k) && kv[k] == rs[i]
    ensures forall k :: k in kv && IsResumeKey(k) ==> kv[k] in rs
  {
    var items: seq<KvItem> :| IsResumeListing(items, kv) && rs == ValuesOf(items);
    forall i | 0 <= i < |rs|
      ensures exists k :: k in kv && IsResumeKey(k) && kv[k] == rs[i]
    {
      assert items[i].key in kv;
    }
    forall k | k in kv && IsResumeKey(k)
      ensures kv[k] in rs
    {
      var i :| 0 <= i < |items| && items[i].key == k;
      assert rs[i] == kv[k];
    }
  }

  /** An empty store shows nothing, and nothing is the only thing it shows. */
  lemma ShowsEmptyStore(rs: seq<Record>)
    ensures Shows(rs, map[]) <==> rs == []
  {
    if rs == [] {
      assert IsResumeListing([], map[]) && rs == ValuesOf([]);
    }
    if Shows(rs, map[]) {
      var items: seq<KvItem> :| IsResumeListing(items, map[]) && rs == ValuesOf(items);
    }
  }

  /** Once the key of `id` is gone from a store keyed by id, no record with that id is shown. */
  lemma DeletedRecordIsNotShown(rs: seq<Record>, kv: map<string, Record>, id: string)
    requires KeyedById(kv) && ResumeKey(id) !in kv
    requires Shows(rs, kv)
    ensures forall i :: 0 <= i < |rs| ==> rs[i].id != id
  {
    var items: seq<KvItem> :| IsResumeListing(items, kv) && rs == ValuesOf(items);
    forall i | 0 <= i < |rs|
      ensures rs[i].id != id
    {
      assert items[i].key in kv && kv[items[i].key] == rs[i];
    }
  }

  /** The file deletions `handleDeleteAll` issues: the resume file, then the image, for each record in turn. */
  function DeletionCalls(rs: seq<Record>): (cs: seq<Call>)
    ensures |cs| == 2 * |rs|
  {
    if rs == [] then []
    else DeletionCalls(rs[..|rs| - 1]) + [FsDelete(rs[|rs| - 1].resumePath), FsDelete(rs[|rs| - 1].imagePath)]
  }

  /** Record `i`'s two deletions sit at positions `2i` and `2i+1`. */
  lemma {:induction false} DeletionCallsAt(rs: seq<Record>, i: int)
    requires 0 <= i < |rs|
    ensures DeletionCalls(rs)[2 * i] == FsDelete(rs[i].resumePath)
    ensures DeletionCalls(rs)[2 * i + 1] == FsDelete(rs[i].imagePath)
  {
    if i < |rs| - 1 {
      DeletionCallsAt(rs[..|rs| - 1], i);
    }
  }

  /** Both files of every listed record are named in the bulk deletion, whatever happened to earlier ones. */
  lemma EveryFileIsAttempted(rs: seq<Record>)
    ensures forall r :: r in rs ==> FsDelete(r.resumePath) in DeletionCalls(rs) && FsDelete(r.imagePath) in DeletionCalls(rs)
  {
    forall r | r in rs
      ensures FsDelete(r.resumePath) in DeletionCalls(rs) && FsDelete(r.imagePath) in DeletionCalls(rs)
    {
      var i :| 0 <= i < |rs| && rs[i] == r;
      DeletionCallsAt(rs, i);
    }
  }

  /** The file paths of the records: each one's resume and image. */
  function PathsOf(rs: seq<Record>): set<string> {
    (set r | r in rs :: r.resumePath) + (set r | r in rs :: r.imagePath)
  }

  /** The bulk deletion targets both paths of every listed record and no other path. */
  lemma PathsOfAreRecordPaths(rs: seq<Record>, p: string)
    ensures p in PathsOf(rs) <==> exists i :: 0 <= i < |rs| && (p == rs[i].resumePath || p == rs[i].imagePath)
  {
    if p in PathsOf(rs) {
      var r :| r in rs && (p == r.resumePath || p == r.imagePath);
      var i :| 0 <= i < |rs| && rs[i] == r;
    }
    if exists i :: 0 <= i < |rs| && (p == rs[i].resumePath || p == rs[i].imagePath) {
      var i :| 0 <= i < |rs| && (p == rs[i].resumePath || p == rs[i].imagePath);
      assert rs[i] in rs;
    }
  }

  /**
   * The bulk deletion names a path exactly when it is in `PathsOf`: every
   * listed record's two paths are deleted, and no other path is.
   */
  lemma DeletionCallsNamePathsOf(rs: seq<Record>, p: string)
    ensures p in PathsOf(rs) <==> FsDelete(p) in DeletionCalls(rs)
  {
    PathsOfAreRecordPaths(rs, p);
    if p in PathsOf(rs) {
      var i :| 0 <= i < |rs| && (p == rs[i].resumePath || p == rs[i].imagePath);
      DeletionCallsAt(rs, i);
    }
    if FsDelete(p) in DeletionCalls(rs) {
      var m :| 0 <= m < |DeletionCalls(rs)| && DeletionCalls(rs)[m] == FsDelete(p);
      var i := m / 2;
      DeletionCallsAt(rs, i);
      assert m == 2 * i || m == 2 * i + 1;
    }
  }

  /** One more record adds its two deletions and its two paths. */
  lemma SnocFacts(rs: seq<Record>, r: Record, failing: set<string>,
                  start: set<string>, before: set<string>, after: set<string>)
    requires before == start - (PathsOf(rs) - failing)
    requires after == before - ({r.resumePath, r.imagePath} - failing)
    ensures DeletionCalls(rs + [r]) == DeletionCalls(rs) + [FsDelete(r.resumePath), FsDelete(r.imagePath)]
    ensures after == start - (PathsOf(rs + [r]) - failing)
  {
    assert (rs + [r])[..|rs|] == rs;
    assert forall x :: x in rs + [r] <==> x in rs || x == r;
    assert PathsOf(rs + [r]) == PathsOf(rs) + {r.resumePath, r.imagePath};
  }

  /**
   * The page's state: the records it shows, whether a listing is in flight,
   * the id being deleted (with every value it has taken, in order), and the
   * alerts shown so far.
   */
  class WipePage {
    const backend: Backend
    var resumes: seq<Record>
    var loadingResumes: bool
    var deletingId: Option<string>
    ghost var deletingHistory: seq<Option<string>>
    var alerts: seq<string>

    constructor (backend: Backend)
      ensures this.backend == backend
      ensures resumes == [] && !loadingResumes && deletingId == None
      ensures deletingHistory == [] && alerts == []
    {
      this.backend := backend;
      resumes, loadingResumes, deletingId := [], false, None;
      deletingHistory, alerts := [], [];
    }

    /** `loadResumes`: lists the `resume:` entries; a failure is logged and leaves the list as it was. */
    method LoadResumes(error: Option<Thrown>, absent: bool)
      modifies this, backend
      ensures backend.calls == old(backend.calls) + [KvList(ResumePattern)]
      ensures backend.kv == old(backend.kv) && backend.files == old(backend.files)
      ensures Reloaded(old(resumes), resumes, error, absent, backend.kv)
      ensures !loadingResumes
      ensures deletingId == old(deletingId) && deletingHistory == old(deletingHistory) && alerts == old(alerts)
    {
      loadingResumes := true;
      var answer := backend.List(error, absent);
      if answer.Returned? {
        match answer.value
        case None =>
          resumes := [];
        case Some(items) =>
          resumes := ValuesOf(items);
      }
      loadingResumes := false;
    }

    /**
     * `handleDeleteResume`: after confirmation, tries to delete both files
     * (a failure is ignored), deletes the record's key and reloads the list;
     * a failing key deletion raises an alert instead of the reload.
     */
    method DeleteResume(resume: Record, confirmed: bool, resumeFileFails: bool, imageFileFails: bool,
                        kvError: Option<Thrown>, listError: Option<Thrown>, listAbsent: bool)
      modifies this, backend
      ensures !confirmed ==> unchanged(this) && unchanged(backend)
      ensures confirmed ==>
        && backend.calls == old(backend.calls)
             + [FsDelete(resume.resumePath), FsDelete(resume.imagePath), KvDelete(ResumeKey(resume.id))]
             + (if kvError.None? then [KvList(ResumePattern)] else [])
        && backend.files == old(backend.files)
             - (if resumeFileFails then {} else {resume.resumePath})
             - (if imageFileFails then {} else {resume.imagePath})
        && backend.kv == (if kvError.None? then old(backend.kv) - {ResumeKey(resume.id)} else old(backend.kv))
        && deletingId == None
        && deletingHistory == old(deletingHistory) + [Some(resume.id), None]
        && alerts == old(alerts) + (if kvError.Some? then [DeleteFailure] else [])
      ensures confirmed && kvError.Some? ==> resumes == old(resumes) && loadingResumes == old(loadingResumes)
      ensures confirmed && kvError.None? ==>
        !loadingResumes && Reloaded(old(resumes), resumes, listError, listAbsent, backend.kv)
    {
      if !confirmed {
        return;
      }
      deletingId := Some(resume.id);
      deletingHistory := deletingHistory + [deletingId];
      backend.Delete(resume.resumePath, resumeFileFails);
      backend.Delete(resume.imagePath, imageFileFails);
      backend.Remove(ResumeKey(resume.id), kvError);
      if kvError.None? {
        LoadResumes(listError, listAbsent);
      } else {
        alerts := alerts + [DeleteFailure];
      }
      deletingId := None;
      deletingHistory := deletingHistory + [deletingId];
    }

    /** One pass of the loop of `handleDeleteAll`: the resume file, then the image, each failure ignored. */
    method DeleteBothFiles(r: Record, failing: set<string>)
      modifies backend
      ensures backend.calls == old(backend.calls) + [FsDelete(r.resumePath), FsDelete(r.imagePath)]
      ensures backend.files == old(backend.files) - ({r.resumePath, r.imagePath} - failing)
      ensures backend.kv == old(backend.kv)
    {
      backend.Delete(r.resumePath, r.resumePath in failing);
      backend.Delete(r.imagePath, r.imagePath in failing);
    }

    /**
     * The loop of `handleDeleteAll`: both file deletions for each record, in
     * order, each one attempted whatever became of the ones before it.
     */
    method DeleteFiles(rs: seq<Record>, failing: set<string>)
      modifies backend
      ensures backend.calls == old(backend.calls) + DeletionCalls(rs)
      ensures backend.files == old(backend.files) - (PathsOf(rs) - failing)
      ensures backend.kv == old(backend.kv)
    {
      var i := 0;
      while i < |rs|
        invariant 0 <= i <= |rs|
        invariant backend.calls == old(backend.calls) + DeletionCalls(rs[..i])
        invariant backend.files == old(backend.files) - (PathsOf(rs[..i]) - failing)
        invariant backend.kv == old(backend.kv)
      {
        assert rs[..i + 1] == rs[..i] + [rs[i]];
        ghost var before := backend.files;
        DeleteBothFiles(rs[i], failing);
        SnocFacts(rs[..i], rs[i], failing, old(backend.files), before, backend.files);
        i := i + 1;
      }
      assert rs[..i] == rs;
    }

    /**
     * `handleDeleteAll`: after confirmation, tries to delete both files of
     * every listed record (failures are ignored), then flushes the whole
     * store and reloads the list; a failing flush raises an alert instead.
     * A file deletion fails exactly when its path is in `failing`.
     */
    method DeleteAll(confirmed: bool, failing: set<string>, flushError: Option<Thrown>,
                     listError: Option<Thrown>, listAbsent: bool)
      modifies this, backend
      ensures !confirmed ==> unchanged(this) && unchanged(backend)
      ensures confirmed ==>
        && backend.calls == old(backend.calls) + DeletionCalls(old(resumes)) + [KvFlush]
             + (if flushError.None? then [KvList(ResumePattern)] else [])
        && backend.files == old(backend.files) - (PathsOf(old(resumes)) - failing)
        && backend.kv == (if flushError.None? then map[] else old(backend.kv))
        && deletingId == old(deletingId) && deletingHistory == old(deletingHistory)
        && alerts == old(alerts) + (if flushError.Some? then [DeleteAllFailure] else [])
      ensures confirmed && flushError.Some? ==> resumes == old(resumes) && loadingResumes == old(loadingResumes)
      ensures confirmed && flushError.None? ==>
        !loadingResumes && (if listError.Some? then resumes == old(resumes) else resumes == [])
    {
      if !confirmed {
        return;
      }
      DeleteFiles(resumes, failing);
      backend.Flush(flushError);
      if flushError.None? {
        LoadResumes(listError, listAbsent);
        ShowsEmptyStore(resumes);
      } else {
        alerts := alerts + [DeleteAllFailure];
      }
    }
  }
}

/**
 * The collaborators behind the pages: Puter's file store (`fs`), key-value
 * store (`kv`) and inference client (`ai`), plus the PDF-to-image converter.
 * None of them is modelled from the inside. How each call turns out is an
 * input; the model keeps what a call changes (the key-value map and the set
 * of stored files) and the sequence of calls made, in order.
 */
module Puter {
  import opened Wrappers
  import Constants

  /** What a rejected call throws: an `Error` carries a message, any other thrown value does not. */
  datatype Thrown = ErrorObject(message: string) | NonError

  /** The text a catch block reports for a thrown value (`error instanceof Error ? error.message : ...`). */
  function MessageOf(t: Thrown): (m: string)
    ensures t.ErrorObject? ==> m == t.message
    ensures t.NonError? ==> m == "An unknown error occurred."
  {
    match t
    case ErrorObject(m) => m
    case NonError => "An unknown error occurred."
  }

  /** How an awaited call settles: it returns a value or it throws. */
  datatype Attempt<+T> = Returned(value: T) | Threw(thrown: Thrown)

  /** A JSON value, as `JSON.parse` returns it. Numbers are modelled as integers. */
  datatype Json =
    | JNull
    | JBool(b: bool)
    | JNumber(n: int)
    | JString(s: string)
    | JArray(items: seq<Json>)
    | JObject(members: seq<(string, Json)>)

  /** The `feedback` field of a stored record: `''` until the analysis is parsed, then whatever `JSON.parse` produced. */
  datatype FeedbackField = Pending | Parsed(value: Json)

  /** One analysis record, as the upload page builds it and the wipe page reads it back. */
  datatype Record = Record(
    id: string,
    resumePath: string,
    imagePath: string,
    companyName: string,
    jobTitle: string,
    jobDescription: string,
    feedback: FeedbackField)

  const ResumePrefix: string := "resume:"

  /** The pattern the wipe page lists records with. */
  const ResumePattern: string := "resume:*"

  /** The key a record is stored under: `resume:${id}`. */
  function ResumeKey(id: string): string {
    ResumePrefix + id
  }

  /** The keys `kv.list('resume:*')` matches: those that start with `resume:`. */
  predicate IsResumeKey(k: string) {
    |ResumePrefix| <= |k| && k[..|ResumePrefix|] == ResumePrefix
  }

  /** Every record key matches the listing pattern, and distinct ids give distinct keys. */
  lemma ResumeKeyFacts(a: string, b: string)
    ensures IsResumeKey(ResumeKey(a))
    ensures ResumeKey(a) == ResumeKey(b) ==> a == b
  {
    assert ResumeKey(a)[..|ResumePrefix|] == ResumePrefix;
    if ResumeKey(a) == ResumeKey(b) {
      assert a == ResumeKey(a)[|ResumePrefix|..];
      assert b == ResumeKey(b)[|ResumePrefix|..];
    }
  }

  /** Every record is stored under the key made from its own id, as the upload page stores it (`Upload.RunKeepsStoreKeyedById`). */
  predicate KeyedById(kv: map<string, Record>) {
    forall k :: k in kv ==> k == ResumeKey(kv[k].id)
  }

  /** A call the pages make into a collaborator, with its arguments. */
  datatype Call =
    | FsUpload(name: string)
    | FsDelete(path: string)
    | ConvertPdf(name: string)
    | KvSet(key: string, record: Record)
    | KvDelete(key: string)
    | KvFlush
    | KvList(pattern: string)
    | AiFeedback(path: string, job: Constants.JobContext)  // ai.feedback(path, prepareInstructions(job))

  /** One `{key, value}` item of a `kv.list(pattern, true)` answer. */
  datatype KvItem = KvItem(key: string, value: Record)

  /**
   * `items` is a listing of the `resume:` entries of `kv`: each item is such
   * an entry, no key appears twice, and no such entry is missing.
   */
  ghost predicate IsResumeListing(items: seq<KvItem>, kv: map<string, Record>) {
    && (forall i :: 0 <= i < |items| ==>
          IsResumeKey(items[i].key) && items[i].key in kv && kv[items[i].key] == items[i].value)
    && (forall i, j :: 0 <= i < j < |items| ==> items[i].key != items[j].key)
    && (forall k :: k in kv && IsResumeKey(k) ==> exists i :: 0 <= i < |items| && items[i].key == k)
  }

  /** The values of a listing, in listing order (`resumeItems.map(item => item.value)`). */
  function ValuesOf(items: seq<KvItem>): (rs: seq<Record>)
    ensures |rs| == |items|
    ensures forall i :: 0 <= i < |items| ==> rs[i] == items[i].value
  {
    if items == [] then [] else [items[0].value] + ValuesOf(items[1..])
  }

  /**
   * Lists the `resume:` entries of a key-value map. The store answers in an
   * order of its own choosing; here the order is whatever the loop picks.
   */
  method ListResumeEntries(kv: map<string, Record>) returns (items: seq<KvItem>)
    ensures IsResumeListing(items, kv)
  {
    var remaining := set k | k in kv && IsResumeKey(k);
    items := [];
    while remaining != {}
      invariant remaining <= kv.Keys
      invariant forall k :: k in remaining ==> IsResumeKey(k)
      invariant forall i :: 0 <= i < |items| ==>
                  IsResumeKey(items[i].key) && items[i].key in kv && kv[items[i].key] == items[i].value
      invariant forall i :: 0 <= i < |items| ==> items[i].key !in remaining
      invariant forall i, j :: 0 <= i < j < |items| ==> items[i].key != items[j].key
      invariant forall k :: k in kv && IsResumeKey(k) ==>
                  k in remaining || exists i :: 0 <= i < |items| && items[i].key == k
      decreases remaining
    {
      var k :| k in remaining;
      ghost var before := items;
      items := items + [KvItem(k, kv[k])];
      remaining := remaining - {k};
      assert items[|before|].key == k;
      forall k' | k' in kv && IsResumeKey(k') && k' !in remaining
        ensures exists i :: 0 <= i < |items| && items[i].key == k'
      {
        if k' != k {
          var i :| 0 <= i < |before| && before[i].key == k';
          assert items[i].key == k';
        }
      }
    }
  }

  /**
   * The state of the collaborators: the key-value map, the set of stored file
   * paths, and every call made so far.
   */
  class Backend {
    var kv: map<string, Record>
    var files: set<string>
    var calls: seq<Call>

    constructor (kv0: map<string, Record>, files0: set<string>)
      ensures kv == kv0 && files == files0 && calls == []
    {
      kv, files, calls := kv0, files0, [];
    }

    /** `fs.upload([file])`: a returned path is now a stored file. */
    method Upload(name: string, outcome: Attempt<Option<string>>)
      modifies this
      ensures calls == old(calls) + [FsUpload(name)]
      ensures files == if outcome.Returned? && outcome.value.Some? then old(files) + {outcome.value.value} else old(files)
      ensures kv == old(kv)
    {
      calls := calls + [FsUpload(name)];
      if outcome.Returned? && outcome.value.Some? {
        files := files + {outcome.value.value};
      }
    }

    /** `fs.delete(path)`: the file is gone unless the call throws. */
    method Delete(path: string, fails: bool)
      modifies this
      ensures calls == old(calls) + [FsDelete(path)]
      ensures files == if fails then old(files) else old(files) - {path}
      ensures kv == old(kv)
    {
      calls := calls + [FsDelete(path)];
      if !fails {
        files := files - {path};
      }
    }

    /** `convertPdfToImage(file)`: stores nothing. */
    method Convert(name: string)
      modifies this
      ensures calls == old(calls) + [ConvertPdf(name)]
      ensures files == old(files) && kv == old(kv)
    {
      calls := calls + [ConvertPdf(name)];
    }

    /** `ai.feedback(path, prepareInstructions(job))`: stores nothing. */
    method Feedback(path: string, job: Constants.JobContext)
      modifies this
      ensures calls == old(calls) + [AiFeedback(path, job)]
      ensures files == old(files) && kv == old(kv)
    {
      calls := calls + [AiFeedback(path, job)];
    }

    /** `kv.set(key, value)`: the value is stored when the call answers `true`. */
    method Set(key: string, value: Record, outcome: Attempt<bool>)
      modifies this
      ensures calls == old(calls) + [KvSet(key, value)]
      ensures kv == if outcome == Returned(true) then old(kv)[key := value] else old(kv)
      ensures files == old(files)
    {
      calls := calls + [KvSet(key, value)];
      if outcome == Returned(true) {
        kv := kv[key := value];
      }
    }

    /** `kv.delete(key)`: the key is absent afterwards unless the call throws. */
    method Remove(key: string, error: Option<Thrown>)
      modifies this
      ensures calls == old(calls) + [KvDelete(key)]
      ensures kv == if error.None? then old(kv) - {key} else old(kv)
      ensures files == old(files)
    {
      calls := calls + [KvDelete(key)];
      if error.None? {
        kv := kv - {key};
      }
    }

    /** `kv.flush()`: every key is gone unless the call throws. */
    method Flush(error: Option<Thrown>)
      modifies this
      ensures calls == old(calls) + [KvFlush]
      ensures kv == if error.None? then map[] else old(kv)
      ensures files == old(files)
    {
      calls := calls + [KvFlush];
      if error.None? {
        kv := map[];
      }
    }

    /**
     * `kv.list('resume:*', true)`: the `resume:` entries with their values,
     * unless the call throws; `absent` is an answer with no list in it.
     */
    method List(error: Option<Thrown>, absent: bool) returns (r: Attempt<Option<seq<KvItem>>>)
      modifies this
      ensures calls == old(calls) + [KvList(ResumePattern)]
      ensures kv == old(kv) && files == old(files)
      ensures error.Some? ==> r == Threw(error.value)
      ensures error.None? && absent ==> r == Returned(None)
      ensures error.None? && !absent ==> r.Returned? && r.value.Some? && IsResumeListing(r.value.value, kv)
    {
      calls := calls + [KvList(ResumePattern)];
      if error.Some? {
        r := Threw(error.value);
      } else if absent {
        r := Returned(None);
      } else {
        var items := ListResumeEntries(kv);
        r := Returned(Some(items));
      }
    }
  }
}

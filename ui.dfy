/**
 * The gallery job bookkeeping of the web UI (core/http/routes/ui.go): a table
 * from gallery model ID to the UID of the install or delete job working on it,
 * the per-entry task classification, the progress-bar choice and the list of
 * all gallery tags.
 *
 * The gallery service (job statuses, search) and UUID generation are outside
 * calls and come in as parameters; HTML rendering is reduced to the values
 * the templates are given.
 */
module GalleryUI {
  import opened Wrappers
  import opened Strings

  /** The gallery service's status of one job. Progress is a Go float64; here an exact real. */
  datatype JobStatus = JobStatus(deletion: bool, progress: real, error: Option<string>, galleryModelName: string)

  datatype GalleryModel = GalleryModel(name: string, tags: seq<string>)

  /** The operation handed to the gallery service. */
  datatype GalleryOp = GalleryOp(id: string, galleryModelName: string, delete: bool)

  /** What an install or delete request answers: the job it submitted and the progress bar it starts. */
  datatype JobStarted = JobStarted(op: GalleryOp, initialProgress: string, taskType: string)

  /** What the progress poll shows. */
  datatype ProgressView =
    | ProgressBar(progress: string, triggerDone: bool)
    | ErrorProgress(message: string, galleryModelName: string)

  /** What the job-done request shows. The handler reads the job's status without a nil
      check, so an unknown job ends in a nil dereference. */
  datatype DoneView =
    | DoneProgress(galleryID: string, displayText: string, showDelete: bool)
    | NilStatusPanic

  /** The table after dropping every entry whose value is `uid`. */
  function WithoutValue(m: map<string, string>, uid: string): (r: map<string, string>)
    ensures forall k :: k in r <==> k in m && m[k] != uid
    ensures forall k :: k in r ==> r[k] == m[k]
  {
    map k | k in m && m[k] != uid :: m[k]
  }

  /** The models being processed: gallery ID to job UID (a synchronised map in the source). */
  class ProcessingModels {
    var entries: map<string, string>

    constructor ()
      ensures entries == map[]
    {
      entries := map[];
    }

    method Set(key: string, value: string)
      modifies this
      ensures entries == old(entries)[key := value]
    {
      entries := entries[key := value];
    }

    method Delete(key: string)
      modifies this
      ensures entries == old(entries) - {key}
    {
      entries := entries - {key};
    }

    /** A missing key reads as "". */
    method Get(key: string) returns (value: string)
      ensures key in entries ==> value == entries[key]
      ensures key !in entries ==> value == ""
    {
      value := if key in entries then entries[key] else "";
    }

    /** The keys, each once, in no particular order. */
    method Keys() returns (keys: seq<string>)
      ensures forall k :: k in keys <==> k in entries
      ensures NoRepeats(keys)
    {
      keys := [];
      var remaining := entries.Keys;
      while remaining != {}
        invariant remaining <= entries.Keys
        invariant forall k :: k in keys <==> k in entries && k !in remaining
        invariant NoRepeats(keys)
        decreases |remaining|
      {
        var k :| k in remaining;
        keys := keys + [k];
        remaining := remaining - {k};
      }
    }
  }

  /** The task shown for a job: deletion, waiting (no status yet) or installation. */
  function TaskType(status: Option<JobStatus>): (t: string)
    ensures t == "Deletion" <==> status.Some? && status.value.deletion
    ensures t == "Waiting" <==> status.None?
    ensures t == "Installation" <==> status.Some? && !status.value.deletion
  {
    if status.Some? && status.value.deletion then "Deletion"
    else if status.None? then "Waiting"
    else "Installation"
  }

  /** The current table and, for each of its keys, the task type of that key's job. */
  method ModelStatus(pm: ProcessingModels, getStatus: string -> Option<JobStatus>)
    returns (processingModelsData: map<string, string>, taskTypes: map<string, string>)
    ensures processingModelsData == pm.entries
    ensures taskTypes.Keys == pm.entries.Keys
    ensures forall k :: k in taskTypes ==> taskTypes[k] == TaskType(getStatus(pm.entries[k]))
  {
    processingModelsData := pm.entries;
    taskTypes := map[];
    var remaining := processingModelsData.Keys;
    while remaining != {}
      invariant remaining <= processingModelsData.Keys
      invariant taskTypes.Keys == processingModelsData.Keys - remaining
      invariant forall k :: k in taskTypes ==> taskTypes[k] == TaskType(getStatus(processingModelsData[k]))
      decreases |remaining|
    {
      var k :| k in remaining;
      var v := processingModelsData[k];
      var status := getStatus(v);
      taskTypes := taskTypes[k := "Installation"];
      if status.Some? && status.value.deletion {
        taskTypes := taskTypes[k := "Deletion"];
      } else if status.None? {
        taskTypes := taskTypes[k := "Waiting"];
      }
      remaining := remaining - {k};
    }
  }

  /** The install request: records the new job's UID under the gallery ID. A failing UUID
      generator ends the request with its error and records nothing. */
  method InstallModel(pm: ProcessingModels, galleryID: string, newUID: Result<string, string>)
    returns (r: Result<JobStarted, string>)
    modifies pm
    ensures newUID.Failure? ==> pm.entries == old(pm.entries) && r == Failure(newUID.error)
    ensures newUID.Success? ==>
      && pm.entries == old(pm.entries)[galleryID := newUID.value]
      && r == Success(JobStarted(GalleryOp(newUID.value, galleryID, false), "0", "Installation"))
  {
    if newUID.Failure? {
      return Failure(newUID.error);
    }
    var uid := newUID.value;
    pm.Set(galleryID, uid);
    var op := GalleryOp(uid, galleryID, false);
    return Success(JobStarted(op, "0", "Installation"));
  }

  /** The model name inside a gallery ID: the piece after the first `@` (up to the next
      `@`, if any); the whole ID when it has no `@`. */
  function GalleryName(galleryID: string): (name: string)
    ensures '@' !in galleryID ==> name == galleryID
    ensures '@' !in name
    ensures '@' in galleryID ==>
      var rest := galleryID[FirstIndex(galleryID, '@') + 1..];
      |name| <= |rest| && rest[..|name|] == name && (|name| == |rest| || rest[|name|] == '@')
  {
    if '@' in galleryID then
      SplitHasSecondPiece(galleryID, '@');
      SplitSecondPiece(galleryID, '@');
      Split(galleryID, '@')[1]
    else galleryID
  }

  /** The second piece of a split: what follows the first separator, up to the next one. */
  lemma SplitSecondPiece(s: string, sep: char)
    requires sep in s
    ensures |Split(s, sep)| >= 2
    ensures var rest := s[FirstIndex(s, sep) + 1..]; var p := Split(s, sep)[1];
      sep !in p && |p| <= |rest| && rest[..|p|] == p && (|p| == |rest| || rest[|p|] == sep)
  {
    var rest := s[FirstIndex(s, sep) + 1..];
    assert Split(s, sep)[1] == Split(rest, sep)[0];
    if sep in rest {
      var j := FirstIndex(rest, sep);
      assert Split(rest, sep)[0] == rest[..j];
    }
  }

  /** The delete request: records the new job's UID under both the model name and the full
      gallery ID, and asks the gallery service to delete the model by name. */
  method DeleteModel(pm: ProcessingModels, galleryID: string, newUID: Result<string, string>)
    returns (r: Result<JobStarted, string>)
    modifies pm
    ensures newUID.Failure? ==> pm.entries == old(pm.entries) && r == Failure(newUID.error)
    ensures newUID.Success? ==>
      && pm.entries == old(pm.entries)[GalleryName(galleryID) := newUID.value][galleryID := newUID.value]
      && r == Success(JobStarted(GalleryOp(newUID.value, GalleryName(galleryID), true), "0", "Deletion"))
  {
    var galleryName := galleryID;
    if '@' in galleryID {
      SplitHasSecondPiece(galleryID, '@');
      galleryName := Split(galleryID, '@')[1];
    }
    if newUID.Failure? {
      return Failure(newUID.error);
    }
    var uid := newUID.value;
    pm.Set(galleryName, uid);
    pm.Set(galleryID, uid);
    var op := GalleryOp(uid, galleryName, true);
    return Success(JobStarted(op, "0", "Deletion"));
  }

  /** After a delete, both the full ID and the model name map to the job. */
  lemma DeleteRecordsBothKeys(m: map<string, string>, galleryID: string, uid: string)
    ensures var m' := m[GalleryName(galleryID) := uid][galleryID := uid];
      && galleryID in m' && m'[galleryID] == uid
      && GalleryName(galleryID) in m' && m'[GalleryName(galleryID)] == uid
      && m'.Keys == m.Keys + {galleryID, GalleryName(galleryID)}
  {
  }

  /** What the progress poll shows: "0" without a status; "100" and the done trigger at full
      progress, even if the job also reports an error; the error; else the progress. */
  function JobProgressView(status: Option<JobStatus>, formatProgress: real -> string): (v: ProgressView)
    ensures status.None? ==> v == ProgressBar("0", false)
    ensures (v.ProgressBar? && v.triggerDone) <==> status.Some? && status.value.progress == 100.0
    ensures v.ProgressBar? && v.triggerDone ==> v.progress == "100"
    ensures v.ErrorProgress? <==> status.Some? && status.value.progress != 100.0 && status.value.error.Some?
    ensures v.ErrorProgress? ==> v.message == status.value.error.value && v.galleryModelName == status.value.galleryModelName
    ensures status.Some? && status.value.progress != 100.0 && status.value.error.None? ==>
      v == ProgressBar(formatProgress(status.value.progress), false)
  {
    if status.None? then ProgressBar("0", false)
    else if status.value.progress == 100.0 then ProgressBar("100", true)
    else if status.value.error.Some? then ErrorProgress(status.value.error.value, status.value.galleryModelName)
    else ProgressBar(formatProgress(status.value.progress), false)
  }

  /** The job-done view for the gallery ID found in the table. */
  function DoneViewFor(galleryID: string, status: Option<JobStatus>): (v: DoneView)
    ensures v.NilStatusPanic? <==> status.None?
    ensures v.DoneProgress? ==> v.galleryID == galleryID && (v.showDelete <==> !status.value.deletion)
    ensures v.DoneProgress? ==>
      v.displayText == (if status.value.deletion then "Deletion completed" else "Installation completed")
  {
    match status
    case None => NilStatusPanic
    case Some(s) =>
      if s.deletion then DoneProgress(galleryID, "Deletion completed", false)
      else DoneProgress(galleryID, "Installation completed", true)
  }

  /** The key loop of the job-done request: removes every table entry that maps to the
      finished job and leaves all other entries alone; reports one of the removed IDs, or ""
      if none. */
  method RemoveJobEntries(pm: ProcessingModels, jobUID: string) returns (galleryID: string)
    modifies pm
    ensures pm.entries == WithoutValue(old(pm.entries), jobUID)
    ensures (exists k :: k in old(pm.entries) && old(pm.entries)[k] == jobUID) ==>
      galleryID in old(pm.entries) && old(pm.entries)[galleryID] == jobUID
    ensures !(exists k :: k in old(pm.entries) && old(pm.entries)[k] == jobUID) ==> galleryID == ""
  {
    var keys := pm.Keys();
    galleryID := "";
    ghost var visited: set<string> := {};
    ghost var found := false;
    for i := 0 to |keys|
      invariant visited == set j | 0 <= j < i :: keys[j]
      invariant forall k :: k in pm.entries <==> k in old(pm.entries) && !(k in visited && old(pm.entries)[k] == jobUID)
      invariant forall k :: k in pm.entries ==> pm.entries[k] == old(pm.entries)[k]
      invariant found <==> exists k :: k in visited && k in old(pm.entries) && old(pm.entries)[k] == jobUID
      invariant found ==> galleryID in old(pm.entries) && old(pm.entries)[galleryID] == jobUID
      invariant !found ==> galleryID == ""
    {
      var k := keys[i];
      assert k !in visited;
      var v := pm.Get(k);
      if v == jobUID {
        galleryID := k;
        found := true;
        pm.Delete(k);
      }
      visited := visited + {k};
    }
    assert visited == old(pm.entries).Keys by {
      forall k | k in old(pm.entries) ensures k in visited {
        var j :| 0 <= j < |keys| && keys[j] == k;
      }
    }
  }

  /** The job-done request: the table loses every entry of the finished job, and the view
      follows the job's status. */
  method JobDone(pm: ProcessingModels, jobUID: string, status: Option<JobStatus>)
    returns (galleryID: string, view: DoneView)
    modifies pm
    ensures pm.entries == WithoutValue(old(pm.entries), jobUID)
    ensures (exists k :: k in old(pm.entries) && old(pm.entries)[k] == jobUID) ==>
      galleryID in old(pm.entries) && old(pm.entries)[galleryID] == jobUID
    ensures !(exists k :: k in old(pm.entries) && old(pm.entries)[k] == jobUID) ==> galleryID == ""
    ensures view == DoneViewFor(galleryID, status)
  {
    galleryID := RemoveJobEntries(pm, jobUID);
    view := DoneViewFor(galleryID, status);
  }

  /** With a fresh job UID, completing an install job removes exactly the key the install
      recorded (and any older entry under that key, which the install overwrote). */
  lemma InstallThenDone(m: map<string, string>, galleryID: string, uid: string)
    requires forall k :: k in m ==> m[k] != uid
    ensures WithoutValue(m[galleryID := uid], uid) == m - {galleryID}
  {
  }

  /** With a fresh job UID, completing a delete job removes both keys the delete recorded
      and leaves every other entry as it was. */
  lemma DeleteThenDone(m: map<string, string>, galleryID: string, uid: string)
    requires forall k :: k in m ==> m[k] != uid
    ensures WithoutValue(m[GalleryName(galleryID) := uid][galleryID := uid], uid)
      == m - {galleryID, GalleryName(galleryID)}
  {
  }

  /** Every tag of every model. */
  function AllTags(models: seq<GalleryModel>): set<string> {
    set m, t | m in models && t in m.tags :: t
  }

  /** A sequence without repeats holds each of its elements once. */
  lemma {:induction false} NoRepeatsCount(s: seq<string>, x: string)
    requires NoRepeats(s)
    ensures multiset(s)[x] <= 1
  {
    if s != [] {
      var init := s[..|s| - 1];
      assert s == init + [s[|s| - 1]];
      NoRepeatsCount(init, x);
      if x == s[|s| - 1] {
        assert x !in init;
      }
    }
  }

  /** A rearrangement of a sequence without repeats has no repeats. */
  lemma RearrangedNoRepeats(s: seq<string>, r: seq<string>)
    requires NoRepeats(s) && multiset(r) == multiset(s)
    ensures NoRepeats(r)
  {
    forall i, j | 0 <= i < j < |r| ensures r[i] != r[j] {
      if r[i] == r[j] {
        var x := r[i];
        assert r == r[..j] + r[j..];
        assert x in r[..j] && x in r[j..];
        assert multiset(r)[x] == multiset(r[..j])[x] + multiset(r[j..])[x];
        NoRepeatsCount(s, x);
        assert false;
      }
    }
  }

  /** The union of all models' tags, gathered model by model. */
  method GatherTags(models: seq<GalleryModel>) returns (allTags: set<string>)
    ensures allTags == AllTags(models)
  {
    allTags := {};
    for i := 0 to |models|
      invariant allTags == AllTags(models[..i])
    {
      var m := models[i];
      for j := 0 to |m.tags|
        invariant allTags == AllTags(models[..i]) + set t | t in m.tags[..j]
      {
        allTags := allTags + {m.tags[j]};
        assert m.tags[..j + 1] == m.tags[..j] + [m.tags[j]];
      }
      assert m.tags[..|m.tags|] == m.tags;
      assert models[..i + 1] == models[..i] + [m];
    }
    assert models[..|models|] == models;
  }

  /** The elements of a set, each once, in no particular order (Go's map iteration). */
  method SetElements(s: set<string>) returns (list: seq<string>)
    ensures NoRepeats(list)
    ensures forall t :: t in list <==> t in s
  {
    list := [];
    var remaining := s;
    while remaining != {}
      invariant remaining <= s
      invariant forall t :: t in list <==> t in s && t !in remaining
      invariant NoRepeats(list)
      decreases |remaining|
    {
      var t :| t in remaining;
      list := list + [t];
      remaining := remaining - {t};
    }
  }

  /** The tag list of the models page: every tag of every model once, in ascending order. */
  method CollectTags(models: seq<GalleryModel>) returns (tags: seq<string>)
    ensures StrictlySorted(tags)
    ensures forall t :: t in tags <==> t in AllTags(models)
  {
    var allTags := GatherTags(models);
    var unsorted := SetElements(allTags);
    tags := SortStrings(unsorted);
    SortStringsSorted(unsorted);
    RearrangedNoRepeats(unsorted, tags);
    SortedDistinctIsStrict(tags);
    forall t ensures t in tags <==> t in unsorted {
      assert t in tags <==> t in multiset(tags);
      assert t in unsorted <==> t in multiset(unsorted);
    }
  }

  /** The models page: the tag list is built from every available model, before the search
      term narrows the models shown. */
  method Browse(models: seq<GalleryModel>, term: string, search: (seq<GalleryModel>, string) -> seq<GalleryModel>)
    returns (tags: seq<string>, shown: seq<GalleryModel>)
    ensures StrictlySorted(tags) && forall t :: t in tags <==> t in AllTags(models)
    ensures shown == if term != "" then search(models, term) else models
  {
    tags := CollectTags(models);
    shown := models;
    if term != "" {
      shown := search(models, term);
    }
  }

  /** The tag list is determined by the models alone: any two lists meeting CollectTags's
      contract for the same models are equal, so the search term cannot change it. */
  lemma TagListIsDetermined(models: seq<GalleryModel>, tags: seq<string>, tags': seq<string>)
    requires StrictlySorted(tags) && forall t :: t in tags <==> t in AllTags(models)
    requires StrictlySorted(tags') && forall t :: t in tags' <==> t in AllTags(models)
    ensures tags == tags'
  {
    StrictlySortedUnique(tags, tags');
  }
}

/** The project page: posting comments, logging hours, submitting
    versions of a deliverable, changing the project status, and the
    navigation that groups deliverables by module or category. Each
    handler builds the updated project it hands to the root (`None` when
    it returns early); the page's own form fields live in `DetailsForm`. */
module ProjectDetails {
  import opened Types
  import Seqs
  import Text

  /** The bucket a deliverable is listed under: its group, or 'Geral' when the group is absent or empty. */
  const DefaultGroup: string := "Geral"

  /** `handleAddComment`: a blank text is ignored; otherwise the comment is appended at the end. */
  function AddComment(p: Project, user: User, text: string, commentId: string, now: string): (r: Option<Project>)
    ensures r.None? <==> Text.IsBlank(text)
    ensures r.Some? ==>
      var cs := r.value.comments;
      && |cs| == |p.comments| + 1
      && cs[..|p.comments|] == p.comments
      && cs[|p.comments|] == Comment(commentId, user.id, user.name, text, now)
      && r.value.(comments := p.comments) == p
  {
    if Text.IsBlank(text) then None
    else Some(p.(comments := p.comments + [Comment(commentId, user.id, user.name, text, now)]))
  }

  /** Recording a time log: the log goes first and `hoursUsed` grows by its hours. */
  function WithTimeLog(p: Project, log: TimeLog): (r: Project)
    ensures r.hoursUsed == p.hoursUsed + log.hours
    ensures |r.timeLogs| == |p.timeLogs| + 1 && r.timeLogs[0] == log && r.timeLogs[1..] == p.timeLogs
    ensures r.(hoursUsed := p.hoursUsed, timeLogs := p.timeLogs) == p
    ensures HoursConsistent(p) ==> HoursConsistent(r)
  {
    var logs := [log] + p.timeLogs;
    assert logs[1..] == p.timeLogs;
    p.(hoursUsed := p.hoursUsed + log.hours, timeLogs := logs)
  }

  /** `handleAddTime`: a non-positive amount is ignored; otherwise a log dated `today` is recorded. */
  function AddTime(p: Project, user: User, hours: real, description: string, logId: string, today: string): (r: Option<Project>)
    ensures r.None? <==> hours <= 0.0
    ensures r.Some? ==>
      && r.value.hoursUsed == p.hoursUsed + hours
      && |r.value.timeLogs| == |p.timeLogs| + 1
      && r.value.timeLogs[0] == TimeLog(logId, user.id, user.name, hours, today, description)
      && r.value.timeLogs[1..] == p.timeLogs
      && r.value.(hoursUsed := p.hoursUsed, timeLogs := p.timeLogs) == p
    ensures r.Some? && HoursConsistent(p) ==> HoursConsistent(r.value)
  {
    if hours <= 0.0 then None
    else Some(WithTimeLog(p, TimeLog(logId, user.id, user.name, hours, today, description)))
  }

  /** A submitted version goes first in the deliverable's history; a Final version finishes the deliverable. */
  function WithVersion(d: Deliverable, v: VersionLog): (r: Deliverable)
    ensures r.versions == [v] + d.versions
    ensures r.status == if v.versionType == Final then Finalizado else d.status
    ensures r.(versions := d.versions, status := d.status) == d
  {
    d.(status := if v.versionType == Final then Finalizado else d.status, versions := [v] + d.versions)
  }

  /** `handleAddVersion`: needs a link and a selected deliverable; only the deliverable with that id changes. */
  function AddVersion(p: Project, selectedId: Option<string>, versionType: VersionType, link: string,
                      notes: string, versionId: string, now: string): (r: Option<Project>)
    ensures r.None? <==> link == "" || selectedId.None? || selectedId.value == ""
    ensures r.Some? ==>
      var ds, ds' := p.deliverables, r.value.deliverables;
      && |ds'| == |ds|
      && r.value.(deliverables := ds) == p
      && (forall i :: 0 <= i < |ds| && ds[i].id != selectedId.value ==> ds'[i] == ds[i])
      && (forall i :: 0 <= i < |ds| && ds[i].id == selectedId.value ==>
            && ds'[i].versions == [VersionLog(versionId, versionType, link, now, notes)] + ds[i].versions
            && ds'[i].status == (if versionType == Final then Finalizado else ds[i].status)
            && ds'[i].(versions := ds[i].versions, status := ds[i].status) == ds[i])
  {
    if link == "" || selectedId.None? || selectedId.value == "" then None
    else
      var v := VersionLog(versionId, versionType, link, now, notes);
      var ds := p.deliverables;
      Some(p.(deliverables := seq(|ds|, i requires 0 <= i < |ds| =>
                                  if ds[i].id == selectedId.value then WithVersion(ds[i], v) else ds[i])))
  }

  /** `handleStatusChange`: only the project's status changes. */
  function ChangeStatus(p: Project, status: ProjectStatus): (r: Project)
    ensures r.status == status && r.(status := p.status) == p
  {
    p.(status := status)
  }

  /** Every update the page makes leaves the hours bookkeeping intact. */
  lemma {:induction false} PageUpdatesKeepHours(p: Project, user: User, text: string, hours: real, versionType: VersionType,
                                                selectedId: Option<string>, status: ProjectStatus, id: string, stamp: string)
    requires HoursConsistent(p)
    ensures var r := AddComment(p, user, text, id, stamp); r.Some? ==> HoursConsistent(r.value)
    ensures var r := AddTime(p, user, hours, text, id, stamp); r.Some? ==> HoursConsistent(r.value)
    ensures var r := AddVersion(p, selectedId, versionType, text, text, id, stamp); r.Some? ==> HoursConsistent(r.value)
    ensures HoursConsistent(ChangeStatus(p, status))
  {
  }

  /** The effect that selects the first deliverable when none is selected yet. */
  function InitialSelection(p: Project, current: Option<string>): (r: Option<string>)
    ensures current.Some? && current.value != "" ==> r == current
    ensures (current.None? || current.value == "") && |p.deliverables| > 0 ==> r == Some(p.deliverables[0].id)
    ensures (current.None? || current.value == "") && |p.deliverables| == 0 ==> r == current
  {
    if |p.deliverables| > 0 && (current.None? || current.value == "") then Some(p.deliverables[0].id) else current
  }

  /** `curr.group || 'Geral'`. */
  function GroupKey(d: Deliverable): string {
    if d.group.Some? && d.group.value != "" then d.group.value else DefaultGroup
  }

  /** The deliverables listed under `key`, in the order of the project's list. */
  function Bucket(ds: seq<Deliverable>, key: string): seq<Deliverable> {
    Seqs.Filter(ds, (d: Deliverable) => GroupKey(d) == key)
  }

  /** Each deliverable is listed under its own key and under no other; buckets keep the list's order. */
  lemma {:induction false} BucketsPartition(ds: seq<Deliverable>, d: Deliverable, key: string)
    requires d in ds
    ensures d in Bucket(ds, GroupKey(d))
    ensures d in Bucket(ds, key) ==> key == GroupKey(d)
    ensures Seqs.IsSubseq(Bucket(ds, key), ds)
  {
    Seqs.FilterIsSubseq(ds, (e: Deliverable) => GroupKey(e) == key);
    var i :| 0 <= i < |ds| && ds[i] == d;
    assert ds[i] in Bucket(ds, GroupKey(d));
  }

  lemma BucketAppend(ds: seq<Deliverable>, d: Deliverable, key: string)
    ensures Bucket(ds + [d], key) == Bucket(ds, key) + (if GroupKey(d) == key then [d] else [])
  {
    Seqs.FilterAppend(ds, d, (e: Deliverable) => GroupKey(e) == key);
  }

  lemma BucketEmpty(ds: seq<Deliverable>, key: string)
    requires forall i :: 0 <= i < |ds| ==> GroupKey(ds[i]) != key
    ensures Bucket(ds, key) == []
  {
    Seqs.FilterDropsAll(ds, (e: Deliverable) => GroupKey(e) == key);
  }

  /** `groupedDeliverables` as intended: one bucket per key in use, each pushed to in list order,
      whatever the module is called (an object without a prototype, or a `Map`, behaves so). */
  method GroupDeliverables(ds: seq<Deliverable>) returns (groups: map<string, seq<Deliverable>>)
    ensures forall k :: k in groups <==> exists i :: 0 <= i < |ds| && GroupKey(ds[i]) == k
    ensures forall k :: k in groups ==> groups[k] == Bucket(ds, k)
  {
    groups := map[];
    for i := 0 to |ds|
      invariant forall k :: k in groups <==> exists j :: 0 <= j < i && GroupKey(ds[j]) == k
      invariant forall k :: k in groups ==> groups[k] == Bucket(ds[..i], k)
    {
      var key := GroupKey(ds[i]);
      if key !in groups {
        BucketEmpty(ds[..i], key);
        groups := groups[key := []];
      }
      groups := groups[key := groups[key] + [ds[i]]];
      assert ds[..i + 1] == ds[..i] + [ds[i]];
      forall k | k in groups
        ensures groups[k] == Bucket(ds[..i + 1], k)
      {
        BucketAppend(ds[..i], ds[i], k);
      }
    }
    assert ds[..|ds|] == ds;
  }

  /** The names a plain JavaScript object `{}` already answers through `Object.prototype`. */
  const InheritedNames: set<string> :=
    {"constructor", "toString", "toLocaleString", "valueOf", "hasOwnProperty",
     "isPrototypeOf", "propertyIsEnumerable", "__proto__",
     "__defineGetter__", "__defineSetter__", "__lookupGetter__", "__lookupSetter__"}

  /** One step of the `reduce` as written: an inherited name reads as a truthy function, so no
      bucket is created and `push` throws (`None`); once thrown, the render stays failed. */
  function GroupStep(acc: Option<map<string, seq<Deliverable>>>, d: Deliverable): Option<map<string, seq<Deliverable>>> {
    if acc.None? || GroupKey(d) in InheritedNames then None
    else
      var key := GroupKey(d);
      Some(acc.value[key := (if key in acc.value then acc.value[key] else []) + [d]])
  }

  /** `groupedDeliverables` as written, folding left over the list into `{}`. */
  function GroupAsWritten(ds: seq<Deliverable>): Option<map<string, seq<Deliverable>>> {
    if ds == [] then Some(map[]) else GroupStep(GroupAsWritten(ds[..|ds| - 1]), ds[|ds| - 1])
  }

  /** The grouping as written fails exactly when some deliverable's key is an inherited name;
      otherwise it agrees with `GroupDeliverables`. */
  lemma {:induction false} GroupAsWrittenSpec(ds: seq<Deliverable>)
    ensures GroupAsWritten(ds).None? <==> exists i :: 0 <= i < |ds| && GroupKey(ds[i]) in InheritedNames
    ensures GroupAsWritten(ds).Some? ==>
      && (forall k :: k in GroupAsWritten(ds).value <==> exists i :: 0 <= i < |ds| && GroupKey(ds[i]) == k)
      && (forall k :: k in GroupAsWritten(ds).value ==> GroupAsWritten(ds).value[k] == Bucket(ds, k))
  {
    if ds != [] {
      var n := |ds| - 1;
      var init, d := ds[..n], ds[n];
      assert ds == init + [d];
      GroupAsWrittenSpec(init);
      var r := GroupAsWritten(init);
      if r.Some? && GroupKey(d) !in InheritedNames {
        var key := GroupKey(d);
        var m := GroupAsWritten(ds).value;
        forall k | k in m
          ensures m[k] == Bucket(ds, k)
        {
          BucketAppend(init, d, k);
          if k == key && key !in r.value {
            BucketEmpty(init, key);
          }
        }
        forall k | k in m
          ensures exists i :: 0 <= i < |ds| && GroupKey(ds[i]) == k
        {
          if k != key {
            var i :| 0 <= i < |init| && GroupKey(init[i]) == k;
            assert ds[i] == init[i];
          } else {
            assert GroupKey(ds[n]) == k;
          }
        }
        forall k | exists i :: 0 <= i < |ds| && GroupKey(ds[i]) == k
          ensures k in m
        {
          var i :| 0 <= i < |ds| && GroupKey(ds[i]) == k;
          if i < n {
            assert init[i] == ds[i];
          }
        }
      } else if r.Some? {
        assert GroupKey(ds[n]) in InheritedNames;
      } else {
        var i :| 0 <= i < |init| && GroupKey(init[i]) in InheritedNames;
        assert ds[i] == init[i];
      }
    }
  }

  /** A single lesson in a module named 'constructor' makes the grouping as written throw,
      while `GroupDeliverables` lists it under its module. */
  lemma InheritedModuleNameThrows(d: Deliverable)
    requires d.group == Some("constructor")
    ensures GroupAsWritten([d]).None?
    ensures Bucket([d], "constructor") == [d]
  {
    assert GroupKey([d][0]) == "constructor";
  }

  /** The page's form fields. */
  class DetailsForm {
    var selectedDeliverableId: Option<string>
    var newComment: string
    var timeLogHours: real
    var timeLogDesc: string
    var versionLink: string
    var versionType: VersionType
    var versionNotes: string

    constructor ()
      ensures selectedDeliverableId == None && newComment == "" && timeLogHours == 0.0 && timeLogDesc == ""
      ensures versionLink == "" && versionType == V1 && versionNotes == ""
    {
      selectedDeliverableId := None;
      newComment := "";
      timeLogHours := 0.0;
      timeLogDesc := "";
      versionLink := "";
      versionType := V1;
      versionNotes := "";
    }

    method SelectInitialDeliverable(p: Project)
      modifies this`selectedDeliverableId
      ensures selectedDeliverableId == InitialSelection(p, old(selectedDeliverableId))
    {
      selectedDeliverableId := InitialSelection(p, selectedDeliverableId);
    }

    /** Post the typed comment; the field is cleared only when something was posted. */
    method SubmitComment(p: Project, user: User, commentId: string, now: string) returns (saved: Option<Project>)
      modifies this`newComment
      ensures saved == AddComment(p, user, old(newComment), commentId, now)
      ensures newComment == if saved.Some? then "" else old(newComment)
    {
      saved := AddComment(p, user, newComment, commentId, now);
      if saved.Some? {
        newComment := "";
      }
    }

    /** Log the typed hours; both fields are reset only when a log was recorded. */
    method SubmitTime(p: Project, user: User, logId: string, today: string) returns (saved: Option<Project>)
      modifies this`timeLogHours, this`timeLogDesc
      ensures saved == AddTime(p, user, old(timeLogHours), old(timeLogDesc), logId, today)
      ensures saved.Some? ==> timeLogHours == 0.0 && timeLogDesc == ""
      ensures saved.None? ==> timeLogHours == old(timeLogHours) && timeLogDesc == old(timeLogDesc)
    {
      saved := AddTime(p, user, timeLogHours, timeLogDesc, logId, today);
      if saved.Some? {
        timeLogHours := 0.0;
        timeLogDesc := "";
      }
    }

    /** Submit a version of the selected deliverable; link and notes are cleared, the version type is kept. */
    method SubmitVersion(p: Project, versionId: string, now: string) returns (saved: Option<Project>)
      modifies this`versionLink, this`versionNotes
      ensures saved == AddVersion(p, selectedDeliverableId, versionType, old(versionLink), old(versionNotes), versionId, now)
      ensures saved.Some? ==> versionLink == "" && versionNotes == ""
      ensures saved.None? ==> versionLink == old(versionLink) && versionNotes == old(versionNotes)
    {
      saved := AddVersion(p, selectedDeliverableId, versionType, versionLink, versionNotes, versionId, now);
      if saved.Some? {
        versionLink := "";
        versionNotes := "";
      }
    }
  }
}

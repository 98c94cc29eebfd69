/** The archive repository of database.py: per-user collections of projects,
    tags, stored MQTT messages and time-view records, kept here as in-memory
    sequences in insertion order, plus the cached list of project names. */
module Archive {
  import opened Wrappers
  import opened Words
  import opened Seqs

  datatype ProjectRecord = ProjectRecord(projectName: string)

  datatype TagRecord = TagRecord(projectName: string, tagName: string)

  datatype MessageRecord = MessageRecord(projectName: string, tagName: string, values: seq<U16>)

  /** One archived frame. The four optional fields are None when the caller
      left them out; `createdAt` is None when absent or unreadable. */
  datatype TimeViewRecord = TimeViewRecord(
    projectName: string,
    topic: string,
    filename: string,
    frameIndex: nat,
    message: seq<U16>,
    numberOfChannels: Option<int>,
    samplingRate: Option<int>,
    samplingSize: Option<int>,
    messageFrequency: Option<int>,
    slots: seq<U16>,
    createdAt: Option<real>)

  /** The dictionary handed to `save_timeview_message`: a required field is
      None when its key is missing. */
  datatype TimeViewDraft = TimeViewDraft(
    topic: Option<string>,
    filename: Option<string>,
    frameIndex: Option<nat>,
    message: Option<seq<U16>>,
    numberOfChannels: Option<int>,
    samplingRate: Option<int>,
    samplingSize: Option<int>,
    messageFrequency: Option<int>,
    slots: seq<U16>,
    createdAt: Option<real>)

  // ---------------------------------------------------------------- queries

  predicate HasProject(users: seq<ProjectRecord>, name: string)
  {
    exists i :: 0 <= i < |users| && users[i].projectName == name
  }

  predicate HasTag(tags: seq<TagRecord>, project: string, tagName: string)
  {
    exists i :: 0 <= i < |tags| && tags[i].projectName == project && tags[i].tagName == tagName
  }

  function UserNames(users: seq<ProjectRecord>): seq<string>
  {
    seq(|users|, i requires 0 <= i < |users| => users[i].projectName)
  }

  /** Positions, in collection order, of the tags of `project`: the list
      that `edit_tag` and `delete_tag` index with `row`. */
  function ProjectTagIndices(tags: seq<TagRecord>, project: string): (r: seq<nat>)
    ensures forall k :: 0 <= k < |r| ==> r[k] < |tags| && tags[r[k]].projectName == project
    ensures forall i :: 0 <= i < |tags| && tags[i].projectName == project ==> i in r
    ensures forall k, l :: 0 <= k < l < |r| ==> r[k] < r[l]
  {
    if tags == [] then []
    else
      var n := |tags| - 1;
      ProjectTagIndices(tags[..n], project) + (if tags[n].projectName == project then [n] else [])
  }

  /** The tag names of a project in collection order (the `find` of
      mqtthandler.py's subscribe step). */
  function TagNamesOf(tags: seq<TagRecord>, project: string): (names: seq<string>)
    ensures forall t :: t in names <==> HasTag(tags, project, t)
  {
    var idx := ProjectTagIndices(tags, project);
    var names := seq(|idx|, k requires 0 <= k < |idx| => tags[idx[k]].tagName);
    assert forall t :: HasTag(tags, project, t) ==> t in names by {
      forall t | HasTag(tags, project, t) ensures t in names {
        var i :| 0 <= i < |tags| && tags[i].projectName == project && tags[i].tagName == t;
        var k :| 0 <= k < |idx| && idx[k] == i;
        assert names[k] == t;
      }
    }
    names
  }

  lemma HasProjectCons(x: ProjectRecord, rest: seq<ProjectRecord>, p: string)
    ensures HasProject([x] + rest, p) <==> x.projectName == p || HasProject(rest, p)
  {
    var s := [x] + rest;
    if HasProject(s, p) && x.projectName != p {
      var i :| 0 <= i < |s| && s[i].projectName == p;
      assert rest[i - 1] == s[i];
    }
    if HasProject(rest, p) {
      var i :| 0 <= i < |rest| && rest[i].projectName == p;
      assert s[i + 1] == rest[i];
    }
    if x.projectName == p {
      assert s[0] == x;
    }
  }

  /** `update_one` on the project collection: the first record named `o` becomes `n`. */
  function RenameFirst(users: seq<ProjectRecord>, o: string, n: string): (r: seq<ProjectRecord>)
    ensures |r| == |users|
    ensures HasProject(users, o) ==> HasProject(r, n)
    ensures !HasProject(users, o) ==> r == users
    ensures forall p :: p != o && p != n ==> (HasProject(r, p) <==> HasProject(users, p))
    ensures forall p :: p != o && HasProject(users, p) ==> HasProject(r, p)
  {
    if users == [] then []
    else
      var found := users[0].projectName == o;
      var head := if found then ProjectRecord(n) else users[0];
      var rest := if found then users[1..] else RenameFirst(users[1..], o, n);
      assert users == [users[0]] + users[1..];
      assert forall p :: HasProject(users, p) <==> users[0].projectName == p || HasProject(users[1..], p) by {
        forall p { HasProjectCons(users[0], users[1..], p); }
      }
      assert forall p :: HasProject([head] + rest, p) <==> head.projectName == p || HasProject(rest, p) by {
        forall p { HasProjectCons(head, rest, p); }
      }
      [head] + rest
  }

  /** `delete_one` on the project collection: the first record named `name` goes. */
  function RemoveFirst(users: seq<ProjectRecord>, name: string): (r: seq<ProjectRecord>)
    ensures |r| == if HasProject(users, name) then |users| - 1 else |users|
    ensures forall p :: p != name ==> (HasProject(r, p) <==> HasProject(users, p))
  {
    if users == [] then []
    else
      assert users == [users[0]] + users[1..];
      assert forall p :: HasProject(users, p) <==> users[0].projectName == p || HasProject(users[1..], p) by {
        forall p { HasProjectCons(users[0], users[1..], p); }
      }
      if users[0].projectName == name then users[1..]
      else
        var rest := RemoveFirst(users[1..], name);
        assert forall p :: HasProject([users[0]] + rest, p) <==> users[0].projectName == p || HasProject(rest, p) by {
          forall p { HasProjectCons(users[0], rest, p); }
        }
        [users[0]] + rest
  }

  /** `update_one` replaces exactly the first record named `o`, in place. */
  lemma {:induction false} RenameFirstAt(users: seq<ProjectRecord>, o: string, n: string, k: nat)
    requires k < |users| && users[k].projectName == o
    requires forall i :: 0 <= i < k ==> users[i].projectName != o
    ensures RenameFirst(users, o, n) == users[k := ProjectRecord(n)]
  {
    if k > 0 {
      RenameFirstAt(users[1..], o, n, k - 1);
      assert users[k := ProjectRecord(n)] == [users[0]] + users[1..][k - 1 := ProjectRecord(n)];
    }
  }

  /** `delete_one` removes exactly the first record named `o`; the others keep their order. */
  lemma {:induction false} RemoveFirstAt(users: seq<ProjectRecord>, o: string, k: nat)
    requires k < |users| && users[k].projectName == o
    requires forall i :: 0 <= i < k ==> users[i].projectName != o
    ensures RemoveFirst(users, o) == users[..k] + users[k + 1..]
  {
    if k > 0 {
      RemoveFirstAt(users[1..], o, k - 1);
      assert users[..k] + users[k + 1..] == [users[0]] + (users[1..][..k - 1] + users[1..][k..]);
    }
  }

  // ---------------------------------------------- cascading update_many calls

  function InProject(p: string): TagRecord -> bool
  {
    (t: TagRecord) => t.projectName == p
  }

  function InEither(o: string, n: string): TagRecord -> bool
  {
    (t: TagRecord) => t.projectName == o || t.projectName == n
  }

  function UnderTopic(project: string, topic: string): TimeViewRecord -> bool
  {
    (r: TimeViewRecord) => r.projectName == project && r.topic == topic
  }

  function UnderEither(project: string, o: string, n: string): TimeViewRecord -> bool
  {
    (r: TimeViewRecord) => r.projectName == project && (r.topic == o || r.topic == n)
  }

  function MoveTags(tags: seq<TagRecord>, o: string, n: string): seq<TagRecord>
  {
    seq(|tags|, i requires 0 <= i < |tags| =>
      if tags[i].projectName == o then tags[i].(projectName := n) else tags[i])
  }

  function MoveMessages(ms: seq<MessageRecord>, o: string, n: string): seq<MessageRecord>
  {
    seq(|ms|, i requires 0 <= i < |ms| =>
      if ms[i].projectName == o then ms[i].(projectName := n) else ms[i])
  }

  function MoveTimeView(tv: seq<TimeViewRecord>, o: string, n: string): seq<TimeViewRecord>
  {
    seq(|tv|, i requires 0 <= i < |tv| =>
      if tv[i].projectName == o then tv[i].(projectName := n) else tv[i])
  }

  function RenameMessageTag(ms: seq<MessageRecord>, project: string, o: string, n: string): seq<MessageRecord>
  {
    seq(|ms|, i requires 0 <= i < |ms| =>
      if ms[i].projectName == project && ms[i].tagName == o then ms[i].(tagName := n) else ms[i])
  }

  function RenameTopic(tv: seq<TimeViewRecord>, project: string, o: string, n: string): seq<TimeViewRecord>
  {
    seq(|tv|, i requires 0 <= i < |tv| =>
      if tv[i].projectName == project && tv[i].topic == o then tv[i].(topic := n) else tv[i])
  }

  /** After a project rename no tag, message or time-view record is left
      under the old name, and the new name holds as many tags as had either
      name (`MoveTagsUnderNew` gives which). */
  lemma {:induction false} MoveLeavesNoOldRecord(tags: seq<TagRecord>, ms: seq<MessageRecord>, tv: seq<TimeViewRecord>,
                                                 o: string, n: string)
    requires o != n
    ensures forall t :: t in MoveTags(tags, o, n) ==> t.projectName != o
    ensures forall m :: m in MoveMessages(ms, o, n) ==> m.projectName != o
    ensures forall r :: r in MoveTimeView(tv, o, n) ==> r.projectName != o
    ensures |Filter(MoveTags(tags, o, n), (t: TagRecord) => t.projectName == n)|
         == |Filter(tags, (t: TagRecord) => t.projectName == o || t.projectName == n)|
  {
    if tags != [] {
      var k := |tags| - 1;
      MoveLeavesNoOldRecord(tags[..k], ms, tv, o, n);
      assert MoveTags(tags, o, n)[..k] == MoveTags(tags[..k], o, n);
    }
  }

  lemma MoveTagsAppend(a: seq<TagRecord>, b: seq<TagRecord>, o: string, n: string)
    ensures MoveTags(a + b, o, n) == MoveTags(a, o, n) + MoveTags(b, o, n)
  {
  }

  lemma MoveTagsUnderNewOne(x: TagRecord, o: string, n: string)
    ensures Filter(MoveTags([x], o, n), InProject(n)) == MoveTags(Filter([x], InEither(o, n)), o, n)
  {
    var m := MoveTags([x], o, n);
    assert m == [m[0]];
    FilterSingle(m[0], InProject(n));
    FilterSingle(x, InEither(o, n));
  }

  /** The tags under the new name after a project rename are exactly the
      tags that had either name, renamed, in their order. */
  lemma {:induction false} MoveTagsUnderNew(tags: seq<TagRecord>, o: string, n: string)
    ensures Filter(MoveTags(tags, o, n), InProject(n)) == MoveTags(Filter(tags, InEither(o, n)), o, n)
  {
    if tags != [] {
      var k := |tags| - 1;
      var init, x := tags[..k], tags[k];
      var p, e := InProject(n), InEither(o, n);
      assert tags == init + [x];
      calc {
        Filter(MoveTags(init + [x], o, n), p);
        { MoveTagsAppend(init, [x], o, n); }
        Filter(MoveTags(init, o, n) + MoveTags([x], o, n), p);
        { FilterConcat(MoveTags(init, o, n), MoveTags([x], o, n), p); }
        Filter(MoveTags(init, o, n), p) + Filter(MoveTags([x], o, n), p);
        { MoveTagsUnderNew(init, o, n); MoveTagsUnderNewOne(x, o, n); }
        MoveTags(Filter(init, e), o, n) + MoveTags(Filter([x], e), o, n);
        { MoveTagsAppend(Filter(init, e), Filter([x], e), o, n); }
        MoveTags(Filter(init, e) + Filter([x], e), o, n);
        { FilterConcat(init, [x], e); }
        MoveTags(Filter(init + [x], e), o, n);
      }
    }
  }

  /** A project rename changes only the project name, and only of the
      records under the old name: every other record and every other field
      stays as it was. */
  lemma MoveChangesOnlyProjectName(tags: seq<TagRecord>, ms: seq<MessageRecord>, tv: seq<TimeViewRecord>,
                                   o: string, n: string)
    ensures |MoveTags(tags, o, n)| == |tags| && |MoveMessages(ms, o, n)| == |ms| && |MoveTimeView(tv, o, n)| == |tv|
    ensures forall i :: 0 <= i < |tags| ==>
              MoveTags(tags, o, n)[i].(projectName := tags[i].projectName) == tags[i]
              && (tags[i].projectName != o ==> MoveTags(tags, o, n)[i] == tags[i])
    ensures forall i :: 0 <= i < |ms| ==>
              MoveMessages(ms, o, n)[i].(projectName := ms[i].projectName) == ms[i]
              && (ms[i].projectName != o ==> MoveMessages(ms, o, n)[i] == ms[i])
    ensures forall i :: 0 <= i < |tv| ==>
              MoveTimeView(tv, o, n)[i].(projectName := tv[i].projectName) == tv[i]
              && (tv[i].projectName != o ==> MoveTimeView(tv, o, n)[i] == tv[i])
  {
  }

  /** After a tag rename none of the project's time-view records keeps the
      old topic, other projects' records are untouched, and the project's
      records under the new topic are as many as had either topic
      (`RenameTopicUnderNew` gives which). */
  lemma {:induction false} TagRenameCascade(tv: seq<TimeViewRecord>, project: string, o: string, n: string)
    requires o != n
    ensures forall r :: r in RenameTopic(tv, project, o, n) && r.projectName == project ==> r.topic != o
    ensures forall i :: 0 <= i < |tv| && tv[i].projectName != project ==> RenameTopic(tv, project, o, n)[i] == tv[i]
    ensures |Filter(RenameTopic(tv, project, o, n), (r: TimeViewRecord) => r.projectName == project && r.topic == n)|
         == |Filter(tv, (r: TimeViewRecord) => r.projectName == project && (r.topic == o || r.topic == n))|
  {
    if tv != [] {
      var k := |tv| - 1;
      TagRenameCascade(tv[..k], project, o, n);
      assert RenameTopic(tv, project, o, n)[..k] == RenameTopic(tv[..k], project, o, n);
    }
  }

  /** A tag rename changes only the topic, and only of the project's
      records under the old topic. */
  lemma RenameTopicChangesOnlyTopic(tv: seq<TimeViewRecord>, project: string, o: string, n: string)
    ensures |RenameTopic(tv, project, o, n)| == |tv|
    ensures forall i :: 0 <= i < |tv| && (tv[i].projectName != project || tv[i].topic != o) ==>
              RenameTopic(tv, project, o, n)[i] == tv[i]
    ensures forall i :: 0 <= i < |tv| ==> RenameTopic(tv, project, o, n)[i].(topic := tv[i].topic) == tv[i]
  {
  }

  lemma RenameTopicAppend(a: seq<TimeViewRecord>, b: seq<TimeViewRecord>, project: string, o: string, n: string)
    ensures RenameTopic(a + b, project, o, n) == RenameTopic(a, project, o, n) + RenameTopic(b, project, o, n)
  {
  }

  lemma RenameTopicUnderNewOne(x: TimeViewRecord, project: string, o: string, n: string)
    ensures Filter(RenameTopic([x], project, o, n), UnderTopic(project, n))
            == RenameTopic(Filter([x], UnderEither(project, o, n)), project, o, n)
  {
    var m := RenameTopic([x], project, o, n);
    assert m == [m[0]];
    FilterSingle(m[0], UnderTopic(project, n));
    FilterSingle(x, UnderEither(project, o, n));
  }

  /** The project's records under the new topic after a tag rename are
      exactly those that had either topic, renamed, in their order. */
  lemma {:induction false} RenameTopicUnderNew(tv: seq<TimeViewRecord>, project: string, o: string, n: string)
    ensures Filter(RenameTopic(tv, project, o, n), UnderTopic(project, n))
            == RenameTopic(Filter(tv, UnderEither(project, o, n)), project, o, n)
  {
    if tv != [] {
      var k := |tv| - 1;
      var init, x := tv[..k], tv[k];
      var p, e := UnderTopic(project, n), UnderEither(project, o, n);
      assert tv == init + [x];
      calc {
        Filter(RenameTopic(init + [x], project, o, n), p);
        { RenameTopicAppend(init, [x], project, o, n); }
        Filter(RenameTopic(init, project, o, n) + RenameTopic([x], project, o, n), p);
        { FilterConcat(RenameTopic(init, project, o, n), RenameTopic([x], project, o, n), p); }
        Filter(RenameTopic(init, project, o, n), p) + Filter(RenameTopic([x], project, o, n), p);
        { RenameTopicUnderNew(init, project, o, n); RenameTopicUnderNewOne(x, project, o, n); }
        RenameTopic(Filter(init, e), project, o, n) + RenameTopic(Filter([x], e), project, o, n);
        { RenameTopicAppend(Filter(init, e), Filter([x], e), project, o, n); }
        RenameTopic(Filter(init, e) + Filter([x], e), project, o, n);
        { FilterConcat(init, [x], e); }
        RenameTopic(Filter(init + [x], e), project, o, n);
      }
    }
  }

  // ---------------------------------------------------------- time-view save

  predicate Complete(d: TimeViewDraft)
  {
    d.topic.Some? && d.filename.Some? && d.frameIndex.Some? && d.message.Some?
  }

  /** The record `save_timeview_message` inserts: the draft's fields as given
      (absent optional ones as None), tagged with the project. */
  function Stored(project: string, d: TimeViewDraft): (r: TimeViewRecord)
    requires Complete(d)
    ensures r.projectName == project
    ensures Some(r.topic) == d.topic && Some(r.filename) == d.filename
    ensures Some(r.frameIndex) == d.frameIndex && Some(r.message) == d.message
    ensures r.numberOfChannels == d.numberOfChannels && r.samplingRate == d.samplingRate
    ensures r.samplingSize == d.samplingSize && r.messageFrequency == d.messageFrequency
    ensures r.createdAt == d.createdAt && r.slots == d.slots
  {
    TimeViewRecord(project, d.topic.value, d.filename.value, d.frameIndex.value, d.message.value,
      d.numberOfChannels, d.samplingRate, d.samplingSize, d.messageFrequency, d.slots, d.createdAt)
  }

  /** An optional query argument: None or the empty string do not filter. */
  predicate Wanted(q: Option<string>, v: string)
  {
    q.None? || q.value == "" || q.value == v
  }

  function Matches(project: string, topic: Option<string>, filename: Option<string>): TimeViewRecord -> bool
  {
    (r: TimeViewRecord) => r.projectName == project && Wanted(topic, r.topic) && Wanted(filename, r.filename)
  }

  /** `get_timeview_messages` over the stored records, in insertion order. */
  function QueryTimeView(users: seq<ProjectRecord>, tv: seq<TimeViewRecord>, project: string,
                         topic: Option<string>, filename: Option<string>): (r: seq<TimeViewRecord>)
    ensures !HasProject(users, project) ==> r == []
    ensures forall i :: 0 <= i < |r| ==>
              r[i] in tv && r[i].projectName == project && Wanted(topic, r[i].topic) && Wanted(filename, r[i].filename)
    ensures HasProject(users, project) ==>
              forall i :: 0 <= i < |tv| && Matches(project, topic, filename)(tv[i]) ==> tv[i] in r
  {
    if !HasProject(users, project) then [] else Filter(tv, Matches(project, topic, filename))
  }

  /** A saved frame shows up as the last record of every query it matches. */
  lemma SavedRecordIsLast(users: seq<ProjectRecord>, tv: seq<TimeViewRecord>, rec: TimeViewRecord,
                          topic: Option<string>, filename: Option<string>)
    requires HasProject(users, rec.projectName)
    requires Matches(rec.projectName, topic, filename)(rec)
    ensures QueryTimeView(users, tv + [rec], rec.projectName, topic, filename)
         == QueryTimeView(users, tv, rec.projectName, topic, filename) + [rec]
  {
    var keep := Matches(rec.projectName, topic, filename);
    FilterConcat(tv, [rec], keep);
    assert Filter([rec], keep) == Filter([], keep) + [rec];
  }

  /** `update_tag_value` accepts a topic exactly when the project exists and
      the topic is one of its tag names, the names the worker subscribes. */
  lemma AcceptedTopics(db: Database, project: string, topic: string)
    ensures db.UpdateTagValue(project, topic) <==> HasProject(db.users, project) && topic in TagNamesOf(db.tags, project)
  {
  }

  class Database {
    var users: seq<ProjectRecord>
    var tags: seq<TagRecord>
    var messages: seq<MessageRecord>
    var timeview: seq<TimeViewRecord>
    /** The cached project list `self.projects`. */
    var projects: seq<string>

    /** Every cached name is a stored project, and none is cached twice. */
    ghost predicate Valid()
      reads this
    {
      && NoDup(projects)
      && forall i :: 0 <= i < |projects| ==> HasProject(users, projects[i])
    }

    /** Opening the store: the collections hold what is already archived and
        the cached list starts empty. */
    constructor (users: seq<ProjectRecord>, tags: seq<TagRecord>, messages: seq<MessageRecord>,
                 timeview: seq<TimeViewRecord>)
      ensures Valid()
      ensures this.users == users && this.tags == tags && this.messages == messages
      ensures this.timeview == timeview && projects == []
    {
      this.users := users;
      this.tags := tags;
      this.messages := messages;
      this.timeview := timeview;
      projects := [];
    }

    /** `update_tag_value`: accepted when the project and the tag exist; it stores nothing. */
    predicate UpdateTagValue(project: string, tagName: string)
      reads this
    {
      HasProject(users, project) && HasTag(tags, project, tagName)
    }

    method LoadProjects() returns (r: seq<string>)
      requires Valid()
      modifies this`projects
      ensures Valid()
      ensures projects == Distinct(UserNames(users)) && r == projects
    {
      projects := [];
      var i := 0;
      while i < |users|
        invariant 0 <= i <= |users|
        invariant projects == Distinct(UserNames(users[..i]))
      {
        var name := users[i].projectName;
        assert UserNames(users[..i + 1])[..i] == UserNames(users[..i]);
        if name !in projects {
          projects := projects + [name];
        }
        i := i + 1;
      }
      assert users[..|users|] == users;
      DistinctElements(UserNames(users));
      forall k | 0 <= k < |projects| ensures HasProject(users, projects[k]) {
        assert projects[k] in UserNames(users);
        var j :| 0 <= j < |users| && UserNames(users)[j] == projects[k];
      }
      r := projects;
    }

    method CreateProject(name: string) returns (ok: bool)
      requires Valid()
      modifies this`users, this`projects
      ensures Valid()
      ensures ok <==> name != "" && !HasProject(old(users), name)
      ensures ok ==> users == old(users) + [ProjectRecord(name)] && projects == old(projects) + [name]
      ensures !ok ==> users == old(users) && projects == old(projects)
    {
      if name == "" {
        return false;
      }
      if exists i :: 0 <= i < |users| && users[i].projectName == name {
        return false;
      }
      assert name !in projects;
      users := users + [ProjectRecord(name)];
      projects := projects + [name];
      forall k | 0 <= k < |projects| ensures HasProject(users, projects[k]) {
        if k < |projects| - 1 {
          var j :| 0 <= j < |old(users)| && old(users)[j].projectName == projects[k];
          assert users[j] == old(users)[j];
        } else {
          assert users[|users| - 1].projectName == name;
        }
      }
      ok := true;
    }

    /** `edit_project`. The project record is renamed before the cached list
        is searched, so an old name missing from the list fails after that
        first update and before the cascade. */
    method EditProject(oldName: string, newName: string) returns (ok: bool)
      requires Valid()
      modifies this
      ensures Valid()
      ensures newName == oldName ==> ok && unchanged(this)
      ensures newName != oldName && HasProject(old(users), newName) ==> !ok && unchanged(this)
      ensures newName != oldName && !HasProject(old(users), newName) && oldName !in old(projects) ==>
                !ok && users == RenameFirst(old(users), oldName, newName)
                && projects == old(projects) && tags == old(tags)
                && messages == old(messages) && timeview == old(timeview)
      ensures newName != oldName && !HasProject(old(users), newName) && oldName in old(projects) ==>
                && ok
                && users == RenameFirst(old(users), oldName, newName)
                && |projects| == |old(projects)|
                && projects[FirstIndex(old(projects), oldName)] == newName
                && (forall k :: 0 <= k < |projects| && old(projects)[k] != oldName ==> projects[k] == old(projects)[k])
                && tags == MoveTags(old(tags), oldName, newName)
                && messages == MoveMessages(old(messages), oldName, newName)
                && timeview == MoveTimeView(old(timeview), oldName, newName)
    {
      if newName == oldName {
        return true;
      }
      if exists i :: 0 <= i < |users| && users[i].projectName == newName {
        return false;
      }
      assert newName !in projects;
      users := RenameFirst(users, oldName, newName);
      if oldName !in projects {
        return false;
      }
      var k := FirstIndex(projects, oldName);
      projects := projects[k := newName];
      tags := MoveTags(tags, oldName, newName);
      messages := MoveMessages(messages, oldName, newName);
      timeview := MoveTimeView(timeview, oldName, newName);
      ok := true;
    }

    /** `delete_project`: every record of the project goes from the tag,
        message and time-view collections, the first project record goes,
        and the name leaves the cached list. */
    method DeleteProject(name: string) returns (ok: bool)
      requires Valid()
      modifies this
      ensures Valid() && ok
      ensures users == RemoveFirst(old(users), name)
      ensures tags == Filter(old(tags), (t: TagRecord) => t.projectName != name)
      ensures messages == Filter(old(messages), (m: MessageRecord) => m.projectName != name)
      ensures timeview == Filter(old(timeview), (r: TimeViewRecord) => r.projectName != name)
      ensures name !in projects
      ensures forall p :: p in projects <==> p in old(projects) && p != name
      ensures name in old(projects) ==>
                projects == old(projects)[..FirstIndex(old(projects), name)]
                            + old(projects)[FirstIndex(old(projects), name) + 1..]
      ensures name !in old(projects) ==> projects == old(projects)
    {
      users := RemoveFirst(users, name);
      tags := Filter(tags, (t: TagRecord) => t.projectName != name);
      messages := Filter(messages, (m: MessageRecord) => m.projectName != name);
      timeview := Filter(timeview, (r: TimeViewRecord) => r.projectName != name);
      if name in projects {
        var k := FirstIndex(projects, name);
        RemoveAt(projects, k);
        projects := projects[..k] + projects[k + 1..];
      }
      ok := true;
    }

    method AddTag(project: string, tagName: string) returns (ok: bool)
      requires Valid()
      modifies this`tags
      ensures Valid()
      ensures ok <==> HasProject(users, project) && !HasTag(old(tags), project, tagName)
      ensures ok ==> tags == old(tags) + [TagRecord(project, tagName)]
      ensures !ok ==> tags == old(tags)
    {
      if !HasProject(users, project) {
        return false;
      }
      if exists i :: 0 <= i < |tags| && tags[i].projectName == project && tags[i].tagName == tagName {
        return false;
      }
      tags := tags + [TagRecord(project, tagName)];
      ok := true;
    }

    /** `edit_tag`: renames the `row`-th tag of the project and carries the
        new name to the project's stored messages and time-view topics. */
    method EditTag(project: string, row: nat, newName: string) returns (ok: bool)
      requires Valid()
      modifies this`tags, this`messages, this`timeview
      ensures Valid()
      ensures var idx := ProjectTagIndices(old(tags), project);
              ok <==> row < |idx| && (newName == old(tags)[idx[row]].tagName || !HasTag(old(tags), project, newName))
      ensures ok ==>
                var k := ProjectTagIndices(old(tags), project)[row];
                var cur := old(tags)[k].tagName;
                && tags == old(tags)[k := TagRecord(project, newName)]
                && messages == RenameMessageTag(old(messages), project, cur, newName)
                && timeview == RenameTopic(old(timeview), project, cur, newName)
      ensures !ok ==> tags == old(tags) && messages == old(messages) && timeview == old(timeview)
    {
      var idx := ProjectTagIndices(tags, project);
      if row >= |idx| {
        return false;
      }
      var k := idx[row];
      var cur := tags[k].tagName;
      if newName != cur && exists i :: 0 <= i < |tags| && tags[i].projectName == project && tags[i].tagName == newName {
        return false;
      }
      tags := tags[k := TagRecord(project, newName)];
      messages := RenameMessageTag(messages, project, cur, newName);
      timeview := RenameTopic(timeview, project, cur, newName);
      ok := true;
    }

    /** `delete_tag`: removes the `row`-th tag of the project and the
        project's messages and time-view records stored under its name. */
    method DeleteTag(project: string, row: nat) returns (ok: bool)
      requires Valid()
      modifies this`tags, this`messages, this`timeview
      ensures Valid()
      ensures ok <==> row < |ProjectTagIndices(old(tags), project)|
      ensures ok ==>
                var k := ProjectTagIndices(old(tags), project)[row];
                var name := old(tags)[k].tagName;
                && tags == old(tags)[..k] + old(tags)[k + 1..]
                && messages == Filter(old(messages), (m: MessageRecord) => !(m.projectName == project && m.tagName == name))
                && timeview == Filter(old(timeview), (r: TimeViewRecord) => !(r.projectName == project && r.topic == name))
      ensures !ok ==> tags == old(tags) && messages == old(messages) && timeview == old(timeview)
    {
      var idx := ProjectTagIndices(tags, project);
      if row >= |idx| {
        return false;
      }
      var k := idx[row];
      var name := tags[k].tagName;
      tags := tags[..k] + tags[k + 1..];
      messages := Filter(messages, (m: MessageRecord) => !(m.projectName == project && m.tagName == name));
      timeview := Filter(timeview, (r: TimeViewRecord) => !(r.projectName == project && r.topic == name));
      ok := true;
    }

    /** `save_timeview_message`: no uniqueness is enforced; a missing project
        or required field inserts nothing. */
    method SaveTimeviewMessage(project: string, draft: TimeViewDraft) returns (ok: bool)
      requires Valid()
      modifies this`timeview
      ensures Valid()
      ensures ok <==> HasProject(users, project) && Complete(draft)
      ensures ok ==> timeview == old(timeview) + [Stored(project, draft)]
      ensures !ok ==> timeview == old(timeview)
    {
      if !HasProject(users, project) {
        return false;
      }
      if draft.topic.None? || draft.filename.None? || draft.frameIndex.None? || draft.message.None? {
        return false;
      }
      timeview := timeview + [Stored(project, draft)];
      ok := true;
    }

  }
}

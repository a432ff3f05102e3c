/** Redis streams with one consumer group each, as distr-pull uses them, and the tasks they carry. */
module Streams {

  type Fields = map<string, string>

  datatype Task = Task(bugId: string, projectId: string, webUrl: string, jobId: string, sourceBranch: string)

  function Field(f: Fields, name: string): string { if name in f then f[name] else "" }

  /** The task an entry carries, read the way every reader reads it. */
  function View(f: Fields): Task {
    Task(Field(f, "bug_id"), Field(f, "project_id"), Field(f, "project_web_url"), Field(f, "job_id"),
         Field(f, "source_branch"))
  }

  function FieldsOf(t: Task): (f: Fields)
    ensures View(f) == t
  {
    map["bug_id" := t.bugId, "project_id" := t.projectId, "project_web_url" := t.webUrl, "job_id" := t.jobId,
        "source_branch" := t.sourceBranch]
  }

  /** What a daemon writes when it turns a task down. */
  function RejectedFields(f: Fields, daemon: string, reason: string): (r: Fields)
    ensures View(r) == View(f)
  {
    FieldsOf(View(f))["daemon_id" := daemon]["reason" := reason]
  }

  /** The daemon a dispatch goes to, if any can take it. */
  datatype Choice = Nobody | Daemon(id: string)

  datatype Key = Inbox(daemon: string) | Pending | Rejected

  /** A group has delivered everything up to last; pel holds what is delivered and not acknowledged. */
  datatype Group = NoGroup | Group(last: nat, pel: set<nat>)

  datatype Stream = Stream(items: map<nat, Fields>, group: Group)

  /** Entry ids grow across all streams; next is larger than every id given out. */
  datatype Db = Db(streams: map<Key, Stream>, next: nat)

  function At(db: Db, k: Key): Stream {
    if k in db.streams then db.streams[k] else Stream(map[], NoGroup)
  }

  predicate HasGroup(db: Db, k: Key) { At(db, k).group.Group? }

  /** XGROUP CREATE with the default id $ and MKSTREAM: a new group starts after the last entry, and an
      existing group is left alone (BUSYGROUP). */
  function EnsureGroup(db: Db, k: Key): Db
    requires db.next > 0
  {
    if HasGroup(db, k) then db
    else db.(streams := db.streams[k := At(db, k).(group := Group(db.next - 1, {}))])
  }

  /** XADD. */
  function Add(db: Db, k: Key, f: Fields): Db {
    var s := At(db, k);
    Db(db.streams[k := s.(items := s.items[db.next := f])], db.next + 1)
  }

  /** The entry XREADGROUP > delivers next. */
  predicate IsNext(db: Db, k: Key, id: nat) {
    var s := At(db, k);
    s.group.Group? && id in s.items && id > s.group.last && forall j | j in s.items && j > s.group.last :: id <= j
  }

  function Deliver(db: Db, k: Key, id: nat): Db
    requires IsNext(db, k, id)
  {
    var s := db.streams[k];
    db.(streams := db.streams[k := s.(group := Group(id, s.group.pel + {id}))])
  }

  /** The entries ids are delivered one after the other, and leave b. */
  ghost predicate Reads(a: Db, k: Key, ids: seq<nat>, b: Db)
    decreases |ids|
  {
    if ids == [] then b == a else IsNext(a, k, ids[0]) && Reads(Deliver(a, k, ids[0]), k, ids[1..], b)
  }

  lemma {:induction false} ReadsOn(a: Db, k: Key, ids: seq<nat>, b: Db, id: nat)
    requires Reads(a, k, ids, b) && IsNext(b, k, id)
    ensures Reads(a, k, ids + [id], Deliver(b, k, id))
    decreases |ids|
  {
    hide IsNext, Deliver;
    if ids != [] {
      ReadsOn(Deliver(a, k, ids[0]), k, ids[1..], b, id);
      assert (ids + [id])[1..] == ids[1..] + [id];
    } else {
      assert ([id])[1..] == [];
    }
  }

  /** XACK. */
  function Ack(db: Db, k: Key, id: nat): Db {
    if !HasGroup(db, k) then db
    else
      var s := db.streams[k];
      db.(streams := db.streams[k := s.(group := s.group.(pel := s.group.pel - {id}))])
  }

  /** DEL. */
  function Delete(db: Db, k: Key): Db { db.(streams := db.streams - {k}) }

  /** Delivered and not acknowledged. */
  predicate InPel(db: Db, k: Key, id: nat) { HasGroup(db, k) && id in At(db, k).group.pel && id in At(db, k).items }

  /** Not delivered yet. */
  predicate Unread(db: Db, k: Key, id: nat) {
    HasGroup(db, k) && id in At(db, k).items && id > At(db, k).group.last
  }

  /** The entry is there and the group still owes it: not delivered yet, or delivered and not acked. */
  predicate Live(db: Db, k: Key, id: nat) {
    var s := At(db, k);
    s.group.Group? && id in s.items && (id > s.group.last || id in s.group.pel)
  }

  ghost predicate WellFormed(db: Db) {
    && db.next > 0
    && forall k | k in db.streams ::
         && (forall id | id in db.streams[k].items :: id < db.next)
         && (db.streams[k].group.Group? ==>
               && db.streams[k].group.last < db.next
               && forall id | id in db.streams[k].group.pel ::
                    id <= db.streams[k].group.last && id in db.streams[k].items)
  }

  /** Every live entry but possibly one stays live and keeps its fields. */
  ghost predicate KeepsBut(a: Db, b: Db, key: Key, but: nat) {
    forall k, id | Live(a, k, id) && (k, id) != (key, but) :: Live(b, k, id) && At(b, k).items[id] == At(a, k).items[id]
  }

  ghost predicate Keeps(a: Db, b: Db) {
    forall k, id | Live(a, k, id) :: Live(b, k, id) && At(b, k).items[id] == At(a, k).items[id]
  }

  lemma EnsureGroupKeeps(db: Db, k: Key)
    requires WellFormed(db)
    ensures WellFormed(EnsureGroup(db, k)) && Keeps(db, EnsureGroup(db, k)) && HasGroup(EnsureGroup(db, k), k)
    ensures forall j :: HasGroup(db, j) ==> HasGroup(EnsureGroup(db, k), j)
  {
  }

  lemma AddKeeps(db: Db, k: Key, f: Fields)
    requires WellFormed(db)
    ensures WellFormed(Add(db, k, f)) && Keeps(db, Add(db, k, f)) && At(Add(db, k, f), k).items[db.next] == f
    ensures Live(Add(db, k, f), k, db.next) <==> HasGroup(db, k)
    ensures forall j :: HasGroup(Add(db, k, f), j) <==> HasGroup(db, j)
  {
  }

  lemma DeliverKeeps(db: Db, k: Key, id: nat)
    requires WellFormed(db) && IsNext(db, k, id)
    ensures WellFormed(Deliver(db, k, id)) && Keeps(db, Deliver(db, k, id))
    ensures forall j :: HasGroup(Deliver(db, k, id), j) <==> HasGroup(db, j)
  {
  }

  lemma AckKeeps(db: Db, k: Key, id: nat)
    requires WellFormed(db)
    ensures WellFormed(Ack(db, k, id)) && KeepsBut(db, Ack(db, k, id), k, id)
    ensures forall j :: HasGroup(Ack(db, k, id), j) <==> HasGroup(db, j)
  {
  }

  /** XADD makes one entry owed when the group exists, and none when it does not. */
  lemma AddedEntries(db: Db, k: Key, f: Fields)
    requires WellFormed(db)
    ensures forall j: Key, n: nat :: Live(Add(db, k, f), j, n) <==>
              ((j, n) == (k, db.next) && HasGroup(db, k)) || Live(db, j, n)
    ensures forall j: Key, n: nat | Live(db, j, n) :: At(Add(db, k, f), j).items[n] == At(db, j).items[n]
  {
  }

  /** DEL takes away the entries of one stream. */
  lemma DeletedEntries(db: Db, k: Key)
    requires WellFormed(db)
    ensures WellFormed(Delete(db, k))
    ensures forall j: Key, n: nat :: Live(Delete(db, k), j, n) <==> Live(db, j, n) && j != k
    ensures forall j: Key, n: nat | Live(db, j, n) && j != k :: At(Delete(db, k), j).items[n] == At(db, j).items[n]
  {
  }

  /** XGROUP CREATE changes nothing but the group it makes, which owes nothing yet. */
  lemma EnsuredEntries(db: Db, k: Key)
    requires WellFormed(db)
    ensures var v := EnsureGroup(db, k);
            && WellFormed(v) && HasGroup(v, k) && v.next == db.next
            && (forall j: Key, n: nat :: Live(v, j, n) <==> Live(db, j, n))
            && (forall j: Key, n: nat | Live(db, j, n) :: At(v, j).items[n] == At(db, j).items[n])
            && (forall j: Key, n: nat | InPel(db, j, n) :: InPel(v, j, n))
            && (forall j: Key, n: nat | Unread(db, j, n) :: Unread(v, j, n))
            && (forall j: Key | HasGroup(db, j) :: HasGroup(v, j))
  {
  }

  /** XADD to a stream with a group. */
  lemma EnteredEntries(db: Db, k: Key, f: Fields)
    requires WellFormed(db) && HasGroup(db, k)
    ensures var v := Add(db, k, f);
            && WellFormed(v) && v.next == db.next + 1 && View(At(v, k).items[db.next]) == View(f)
            && (forall j: Key, n: nat :: Live(v, j, n) <==> (j, n) == (k, db.next) || Live(db, j, n))
            && (forall j: Key, n: nat | Live(db, j, n) :: At(v, j).items[n] == At(db, j).items[n])
            && (forall j: Key, n: nat | InPel(db, j, n) :: InPel(v, j, n))
            && (forall j: Key, n: nat | Unread(db, j, n) :: Unread(v, j, n))
            && (forall j: Key | HasGroup(db, j) :: HasGroup(v, j))
  {
    AddKeeps(db, k, f);
    AddedEntries(db, k, f);
  }

  /** XACK of a delivered entry. */
  lemma AckedEntries(db: Db, k: Key, id: nat)
    requires WellFormed(db) && InPel(db, k, id)
    ensures var v := Ack(db, k, id);
            && WellFormed(v) && v.next == db.next
            && (forall j: Key, n: nat :: Live(v, j, n) <==> Live(db, j, n) && (j, n) != (k, id))
            && (forall j: Key, n: nat | Live(v, j, n) :: At(v, j).items[n] == At(db, j).items[n])
            && (forall j: Key, n: nat :: InPel(v, j, n) <==> InPel(db, j, n) && (j, n) != (k, id))
            && (forall j: Key, n: nat | Unread(db, j, n) :: Unread(v, j, n))
            && (forall j: Key | HasGroup(db, j) :: HasGroup(v, j))
  {
    AckKeeps(db, k, id);
  }
}

/**
 * The locally scheduled Flask application of main.py: the `scheduled_post`
 * table, the APScheduler job store, the schedule and immediate branches of
 * the `index` view, the "next up" selection, `load_scheduled_posts`, and the
 * firing of a date job.
 *
 * Times are integer timestamps. Paths are relative to the static folder.
 */
module SchedulerApp {
  import opened Wrappers
  import opened Text
  import opened FileTypes
  import opened MastodonCalls

  /** A row of the `scheduled_post` table. Rows are only ever added. */
  datatype ScheduledPost = ScheduledPost(id: nat, content: string, imagePath: Option<string>, scheduleTime: int)

  /**
   * An APScheduler 'date' job: run post_to_mastodon(content, imagePath) at
   * runDate. The arguments are copied values, not a reference to a row.
   */
  datatype Job = Job(runDate: int, content: string, imagePath: Option<string>)

  /** The job a row is registered with: its time and a copy of its content and path. */
  function JobFor(p: ScheduledPost): Job {
    Job(p.scheduleTime, p.content, p.imagePath)
  }

  /** The job id the schedule branch of `index` uses: `str(new_post.id)`. */
  function ScheduleKey(id: nat): (k: string)
    ensures |k| > 0 && forall i :: 0 <= i < |k| ==> IsDigit(k[i])
    ensures ParseNat(k) == id
  {
    ParseNatToString(id);
    NatToString(id)
  }

  /** The job id `load_scheduled_posts` uses: `f"post_{post.id}"`. */
  function ReloadKey(id: nat): (k: string)
    ensures |k| > 5 && k[..5] == "post_"
    ensures ParseNat(k[5..]) == id
  {
    ParseNatToString(id);
    var k := "post_" + NatToString(id);
    assert k[5..] == NatToString(id);
    k
  }

  /** The two kinds of job id never coincide, whatever the ids. */
  lemma KeysDiffer(a: nat, b: nat)
    ensures ScheduleKey(a) != ReloadKey(b)
  {
    assert ReloadKey(b)[0] == 'p';
    assert IsDigit(ScheduleKey(a)[0]);
  }

  lemma ScheduleKeyInjective(a: nat, b: nat)
    ensures ScheduleKey(a) == ScheduleKey(b) ==> a == b
  {
    NatToStringInjective(a, b);
  }

  lemma ReloadKeyInjective(a: nat, b: nat)
    ensures ReloadKey(a) == ReloadKey(b) ==> a == b
  {
    assert ReloadKey(a)[5..] == NatToString(a);
    assert ReloadKey(b)[5..] == NatToString(b);
    NatToStringInjective(a, b);
  }

  // ---------------------------------------------------------------------
  // The uploaded image

  function UploadPath(safeName: string): string {
    "uploads/" + safeName
  }

  /**
   * The image_path stored with a scheduled post: 'uploads/<secure name>' when
   * a file was sent (a non-empty file name) whose name passes allowed_file,
   * None otherwise. `safeName` is what secure_filename made of the name.
   */
  function StoredImagePath(filename: string, safeName: string): (path: Option<string>)
    ensures path.Some? <==> filename != "" && AllowedFile(filename)
    ensures path.Some? ==> path.value == UploadPath(safeName) && Truthy(path)
  {
    if filename != "" && AllowedFile(filename) then Some(UploadPath(safeName)) else None
  }

  /** The files `file.save` adds to the upload folder. */
  function SavedFiles(filename: string, safeName: string): (saved: set<string>)
    ensures saved == {} <==> StoredImagePath(filename, safeName).None?
  {
    if filename != "" && AllowedFile(filename) then {UploadPath(safeName)} else {}
  }

  // ---------------------------------------------------------------------
  // Invariants of the table and the job store

  /** Rows are never deleted, so SQLite hands out ids 1, 2, 3, ... in row order. */
  ghost predicate IdsAreRowNumbers(posts: seq<ScheduledPost>) {
    forall i :: 0 <= i < |posts| ==> posts[i].id == i + 1
  }

  /**
   * Every job is registered under one of the two ids of some row and runs
   * exactly that row's content and path at that row's time.
   */
  ghost predicate JobsBelongToPosts(posts: seq<ScheduledPost>, jobs: map<string, Job>) {
    forall k :: k in jobs ==>
      exists i :: 0 <= i < |posts| && (k == ScheduleKey(posts[i].id) || k == ReloadKey(posts[i].id))
                  && jobs[k] == JobFor(posts[i])
  }

  /** A new row's id is not yet a job id: add_job will not raise ConflictingIdError. */
  lemma FreshScheduleKey(posts: seq<ScheduledPost>, jobs: map<string, Job>)
    requires IdsAreRowNumbers(posts) && JobsBelongToPosts(posts, jobs)
    ensures ScheduleKey(|posts| + 1) !in jobs
  {
    forall k | k in jobs
      ensures k != ScheduleKey(|posts| + 1)
    {
      var i :| 0 <= i < |posts| && (k == ScheduleKey(posts[i].id) || k == ReloadKey(posts[i].id))
               && jobs[k] == JobFor(posts[i]);
      ScheduleKeyInjective(posts[i].id, |posts| + 1);
      KeysDiffer(|posts| + 1, posts[i].id);
    }
  }

  lemma JobsBelongAppend(posts: seq<ScheduledPost>, jobs: map<string, Job>, p: ScheduledPost)
    requires JobsBelongToPosts(posts, jobs)
    ensures JobsBelongToPosts(posts + [p], jobs)
  {
    forall k | k in jobs
      ensures exists i :: 0 <= i < |posts + [p]|
                          && (k == ScheduleKey((posts + [p])[i].id) || k == ReloadKey((posts + [p])[i].id))
                          && jobs[k] == JobFor((posts + [p])[i])
    {
      var i :| 0 <= i < |posts| && (k == ScheduleKey(posts[i].id) || k == ReloadKey(posts[i].id))
               && jobs[k] == JobFor(posts[i]);
      assert (posts + [p])[i] == posts[i];
    }
  }

  lemma JobsBelongAdd(posts: seq<ScheduledPost>, jobs: map<string, Job>, i: nat, key: string)
    requires JobsBelongToPosts(posts, jobs)
    requires i < |posts| && (key == ScheduleKey(posts[i].id) || key == ReloadKey(posts[i].id))
    ensures JobsBelongToPosts(posts, jobs[key := JobFor(posts[i])])
  {
  }

  // ---------------------------------------------------------------------
  // Ordering by schedule time (`order_by(ScheduledPost.schedule_time)`)

  ghost predicate SortedByTime(s: seq<ScheduledPost>) {
    forall i, j :: 0 <= i < j < |s| ==> s[i].scheduleTime <= s[j].scheduleTime
  }

  /** Inserts p after every row that is not later than it. */
  function InsertByTime(s: seq<ScheduledPost>, p: ScheduledPost): (r: seq<ScheduledPost>)
    ensures multiset(r) == multiset(s) + multiset{p}
    decreases |s|
  {
    if s == [] then [p]
    else if p.scheduleTime < s[0].scheduleTime then [p] + s
    else
      assert s == [s[0]] + s[1..];
      [s[0]] + InsertByTime(s[1..], p)
  }

  lemma {:induction false} InsertByTimeSorted(s: seq<ScheduledPost>, p: ScheduledPost)
    requires SortedByTime(s)
    ensures SortedByTime(InsertByTime(s, p))
    decreases |s|
  {
    if s != [] && p.scheduleTime >= s[0].scheduleTime {
      var rest := InsertByTime(s[1..], p);
      InsertByTimeSorted(s[1..], p);
      assert s == [s[0]] + s[1..];
      forall j | 0 <= j < |rest|
        ensures s[0].scheduleTime <= rest[j].scheduleTime
      {
        assert rest[j] in multiset(rest);
        assert rest[j] in multiset(s[1..]) || rest[j] == p;
      }
    }
  }

  /** The rows in ascending schedule time; rows with equal times keep their row order. */
  function SortByTime(posts: seq<ScheduledPost>): (r: seq<ScheduledPost>)
    ensures multiset(r) == multiset(posts)
    ensures SortedByTime(r)
    decreases |posts|
  {
    if posts == [] then []
    else
      assert posts == posts[..|posts| - 1] + [posts[|posts| - 1]];
      InsertByTimeSorted(SortByTime(posts[..|posts| - 1]), posts[|posts| - 1]);
      InsertByTime(SortByTime(posts[..|posts| - 1]), posts[|posts| - 1])
  }

  lemma SameRows(a: seq<ScheduledPost>, b: seq<ScheduledPost>)
    requires multiset(a) == multiset(b)
    ensures forall q :: q in a <==> q in b
  {
    assert forall q :: q in a <==> q in multiset(a);
    assert forall q :: q in b <==> q in multiset(b);
  }

  /** In a list sorted by time, the first row later than now is the earliest such row. */
  lemma FirstFutureIsEarliest(ordered: seq<ScheduledPost>, k: nat, now: int)
    requires SortedByTime(ordered)
    requires k < |ordered| && ordered[k].scheduleTime > now
    requires forall j :: 0 <= j < k ==> ordered[j].scheduleTime <= now
    ensures forall q :: q in ordered && q.scheduleTime > now ==> ordered[k].scheduleTime <= q.scheduleTime
  {
    forall q | q in ordered && q.scheduleTime > now
      ensures ordered[k].scheduleTime <= q.scheduleTime
    {
      var m :| 0 <= m < |ordered| && ordered[m] == q;
      assert k <= m;
    }
  }

  /**
   * The loop of `index` that picks the next-up post: the first row of the
   * list whose time is strictly after now.
   */
  method FirstFuturePost(ordered: seq<ScheduledPost>, now: int) returns (next: Option<ScheduledPost>)
    ensures next.None? <==> forall j :: 0 <= j < |ordered| ==> ordered[j].scheduleTime <= now
    ensures next.Some? ==>
      exists k :: 0 <= k < |ordered| && ordered[k] == next.value && ordered[k].scheduleTime > now
                  && forall j :: 0 <= j < k ==> ordered[j].scheduleTime <= now
  {
    next := None;
    var i := 0;
    while i < |ordered|
      invariant 0 <= i <= |ordered|
      invariant forall j :: 0 <= j < i ==> ordered[j].scheduleTime <= now
    {
      if ordered[i].scheduleTime > now {
        next := Some(ordered[i]);
        break;
      }
      i := i + 1;
    }
  }

  // ---------------------------------------------------------------------
  // load_scheduled_posts, as a function of the rows and the job store

  /**
   * The job store after load_scheduled_posts has gone through `posts` in
   * order: a row later than now gets a job under "post_<id>" unless a job
   * with that id is already there.
   */
  function Reload(posts: seq<ScheduledPost>, jobs: map<string, Job>, now: int): map<string, Job>
    decreases |posts|
  {
    if posts == [] then jobs
    else
      var before := Reload(posts[..|posts| - 1], jobs, now);
      var p := posts[|posts| - 1];
      if p.scheduleTime > now && ReloadKey(p.id) !in before then before[ReloadKey(p.id) := JobFor(p)]
      else before
  }

  /** Reloading never replaces or removes a job. */
  lemma {:induction false} ReloadKeepsJobs(posts: seq<ScheduledPost>, jobs: map<string, Job>, now: int)
    ensures forall k :: k in jobs ==> k in Reload(posts, jobs, now) && Reload(posts, jobs, now)[k] == jobs[k]
    decreases |posts|
  {
    if posts != [] {
      ReloadKeepsJobs(posts[..|posts| - 1], jobs, now);
    }
  }

  /** Every job reloading adds is the "post_<id>" job of a row later than now. */
  lemma {:induction false} ReloadAddsOnlyFuture(posts: seq<ScheduledPost>, jobs: map<string, Job>, now: int)
    ensures forall k :: k in Reload(posts, jobs, now) && k !in jobs ==>
      exists p :: p in posts && p.scheduleTime > now && k == ReloadKey(p.id) && Reload(posts, jobs, now)[k] == JobFor(p)
    decreases |posts|
  {
    if posts != [] {
      var init := posts[..|posts| - 1];
      ReloadAddsOnlyFuture(init, jobs, now);
      forall k | k in Reload(posts, jobs, now) && k !in jobs
        ensures exists p :: p in posts && p.scheduleTime > now && k == ReloadKey(p.id) && Reload(posts, jobs, now)[k] == JobFor(p)
      {
        if k in Reload(init, jobs, now) {
          var p :| p in init && p.scheduleTime > now && k == ReloadKey(p.id) && Reload(init, jobs, now)[k] == JobFor(p);
          assert p in posts;
        } else {
          assert posts[|posts| - 1] in posts;
        }
      }
    }
  }

  /** After reloading, every row later than now has a "post_<id>" job. */
  lemma {:induction false} ReloadCoversFuture(posts: seq<ScheduledPost>, jobs: map<string, Job>, now: int)
    ensures forall p :: p in posts && p.scheduleTime > now ==> ReloadKey(p.id) in Reload(posts, jobs, now)
    decreases |posts|
  {
    if posts != [] {
      var init := posts[..|posts| - 1];
      ReloadCoversFuture(init, jobs, now);
      assert posts == init + [posts[|posts| - 1]];
    }
  }

  /** Reloading is the identity when every row later than now already has its job. */
  lemma {:induction false} ReloadNoop(posts: seq<ScheduledPost>, jobs: map<string, Job>, now: int)
    requires forall p :: p in posts && p.scheduleTime > now ==> ReloadKey(p.id) in jobs
    ensures Reload(posts, jobs, now) == jobs
    decreases |posts|
  {
    if posts != [] {
      var init := posts[..|posts| - 1];
      assert forall p :: p in init ==> p in posts;
      ReloadNoop(init, jobs, now);
      assert posts[|posts| - 1] in posts;
    }
  }

  /**
   * Calling load_scheduled_posts a second time, at the same time or later,
   * leaves the job store as the first call left it.
   */
  lemma ReloadIdempotent(posts: seq<ScheduledPost>, jobs: map<string, Job>, now1: int, now2: int)
    requires now1 <= now2
    ensures Reload(posts, Reload(posts, jobs, now1), now2) == Reload(posts, jobs, now1)
  {
    ReloadCoversFuture(posts, jobs, now1);
    ReloadNoop(posts, Reload(posts, jobs, now1), now2);
  }

  /** Reloading neither looks at nor touches the ids the schedule branch uses. */
  lemma ReloadLeavesScheduleKeys(posts: seq<ScheduledPost>, jobs: map<string, Job>, now: int, id: nat)
    ensures ScheduleKey(id) in Reload(posts, jobs, now) <==> ScheduleKey(id) in jobs
    ensures ScheduleKey(id) in jobs ==> Reload(posts, jobs, now)[ScheduleKey(id)] == jobs[ScheduleKey(id)]
  {
    ReloadKeepsJobs(posts, jobs, now);
    ReloadAddsOnlyFuture(posts, jobs, now);
    if ScheduleKey(id) in Reload(posts, jobs, now) && ScheduleKey(id) !in jobs {
      var p :| p in posts && p.scheduleTime > now && ScheduleKey(id) == ReloadKey(p.id)
               && Reload(posts, jobs, now)[ScheduleKey(id)] == JobFor(p);
      KeysDiffer(id, p.id);
    }
  }

  /**
   * As written, reloading gives a post that the schedule branch registered
   * (job "<id>", kept by the persistent job store) a second job "post_<id>"
   * running the same content at the same time: the post is published twice.
   */
  lemma ReloadDuplicatesScheduledPost(posts: seq<ScheduledPost>, jobs: map<string, Job>, now: int, i: nat)
    requires IdsAreRowNumbers(posts) && JobsBelongToPosts(posts, jobs)
    requires i < |posts| && posts[i].scheduleTime > now
    requires ScheduleKey(posts[i].id) in jobs && ReloadKey(posts[i].id) !in jobs
    ensures ScheduleKey(posts[i].id) in Reload(posts, jobs, now) && ReloadKey(posts[i].id) in Reload(posts, jobs, now)
    ensures Reload(posts, jobs, now)[ScheduleKey(posts[i].id)] == JobFor(posts[i])
    ensures Reload(posts, jobs, now)[ReloadKey(posts[i].id)] == JobFor(posts[i])
  {
    var r := Reload(posts, jobs, now);
    var key := ScheduleKey(posts[i].id);
    var j :| 0 <= j < |posts| && (key == ScheduleKey(posts[j].id) || key == ReloadKey(posts[j].id))
             && jobs[key] == JobFor(posts[j]);
    KeysDiffer(posts[i].id, posts[j].id);
    ScheduleKeyInjective(posts[i].id, posts[j].id);
    ReloadKeepsJobs(posts, jobs, now);
    ReloadCoversFuture(posts, jobs, now);
    ReloadAddsOnlyFuture(posts, jobs, now);
    assert posts[i] in posts;
    var p :| p in posts && p.scheduleTime > now && ReloadKey(posts[i].id) == ReloadKey(p.id) && r[ReloadKey(posts[i].id)] == JobFor(p);
    ReloadKeyInjective(posts[i].id, p.id);
  }

  /**
   * load_scheduled_posts as evidently intended: register under the same id
   * the schedule branch uses, so an already registered post is skipped.
   */
  function ReloadFixed(posts: seq<ScheduledPost>, jobs: map<string, Job>, now: int): map<string, Job>
    decreases |posts|
  {
    if posts == [] then jobs
    else
      var before := ReloadFixed(posts[..|posts| - 1], jobs, now);
      var p := posts[|posts| - 1];
      if p.scheduleTime > now && ScheduleKey(p.id) !in before then before[ScheduleKey(p.id) := JobFor(p)]
      else before
  }

  /** Every job is the "<id>" job of one of `rows`, running that row's content. */
  ghost predicate OnlyScheduleJobs(rows: seq<ScheduledPost>, jobs: map<string, Job>) {
    forall k :: k in jobs ==>
      exists i :: 0 <= i < |rows| && k == ScheduleKey(rows[i].id) && jobs[k] == JobFor(rows[i])
  }

  /**
   * With the intended key, a store that holds only "<id>" jobs of the rows
   * keeps that shape after reloading: no row gets a second job.
   */
  lemma {:induction false} ReloadFixedOneJobPerPost(rows: seq<ScheduledPost>, posts: seq<ScheduledPost>, jobs: map<string, Job>, now: int)
    requires forall p :: p in posts ==> p in rows
    requires OnlyScheduleJobs(rows, jobs)
    ensures OnlyScheduleJobs(rows, ReloadFixed(posts, jobs, now))
    decreases |posts|
  {
    if posts != [] {
      var init := posts[..|posts| - 1];
      var p := posts[|posts| - 1];
      assert forall q :: q in init ==> q in posts;
      ReloadFixedOneJobPerPost(rows, init, jobs, now);
      assert p in posts;
      var i :| 0 <= i < |rows| && rows[i] == p;
    }
  }

  /** With the intended key, every row later than now ends up with its "<id>" job. */
  lemma {:induction false} ReloadFixedCoversFuture(posts: seq<ScheduledPost>, jobs: map<string, Job>, now: int)
    ensures forall p :: p in posts && p.scheduleTime > now ==> ScheduleKey(p.id) in ReloadFixed(posts, jobs, now)
    decreases |posts|
  {
    if posts != [] {
      var init := posts[..|posts| - 1];
      ReloadFixedCoversFuture(init, jobs, now);
      assert posts == init + [posts[|posts| - 1]];
    }
  }

  // ---------------------------------------------------------------------
  // The application state

  class App {
    /** The `scheduled_post` table, in row order. */
    var posts: seq<ScheduledPost>
    /** The APScheduler job store, by job id. */
    var jobs: map<string, Job>
    /** The files under the static folder. */
    var files: set<string>

    ghost predicate Valid()
      reads this
    {
      IdsAreRowNumbers(posts) && JobsBelongToPosts(posts, jobs)
    }

    /** The state a process starts from: what the database and the disk hold. */
    constructor Restore(posts0: seq<ScheduledPost>, jobs0: map<string, Job>, files0: set<string>)
      requires IdsAreRowNumbers(posts0) && JobsBelongToPosts(posts0, jobs0)
      ensures Valid()
      ensures posts == posts0 && jobs == jobs0 && files == files0
    {
      posts, jobs, files := posts0, jobs0, files0;
    }

    /** `scheduler.add_job(..., id=key)`: raises ConflictingIdError when the id is taken. */
    method AddJob(key: string, job: Job) returns (conflict: bool)
      modifies this`jobs
      ensures conflict == (key in old(jobs))
      ensures jobs == if conflict then old(jobs) else old(jobs)[key := job]
    {
      conflict := key in jobs;
      if !conflict {
        jobs := jobs[key := job];
      }
    }

    /**
     * The schedule branch of `index`: save the image if it is allowed, commit
     * one new row, then register one date job under the row's id with a copy
     * of the content and the image path.
     */
    method ScheduleBranch(status: string, filename: string, safeName: string, time: int) returns (id: nat)
      requires Valid()
      modifies this
      ensures Valid()
      ensures id == |old(posts)| + 1
      ensures posts == old(posts) + [ScheduledPost(id, status, StoredImagePath(filename, safeName), time)]
      ensures ScheduleKey(id) !in old(jobs)
      ensures jobs == old(jobs)[ScheduleKey(id) := Job(time, status, StoredImagePath(filename, safeName))]
      ensures files == old(files) + SavedFiles(filename, safeName)
      ensures StoredImagePath(filename, safeName).Some? ==> StoredImagePath(filename, safeName).value in files
    {
      var imagePath: Option<string> := None;
      if filename != "" && AllowedFile(filename) {
        files := files + {UploadPath(safeName)};
        imagePath := Some(UploadPath(safeName));
      }
      var post := ScheduledPost(|posts| + 1, status, imagePath, time);
      var rows := posts + [post];
      FreshScheduleKey(posts, jobs);
      JobsBelongAppend(posts, jobs, post);
      JobsBelongAdd(rows, jobs, |rows| - 1, ScheduleKey(post.id));
      assert IdsAreRowNumbers(rows);
      posts := rows;
      var conflict := AddJob(ScheduleKey(post.id), JobFor(post));
      id := post.id;
    }

    /**
     * The immediate branch of `index` (no schedule time): no row and no job;
     * the image is saved and uploaded, then the status is posted. Nothing
     * catches here, so a failing request surfaces as `raised`.
     */
    method PostNowBranch(client: Client, status: string, filename: string, safeName: string, reply: Reply)
      returns (raised: bool)
      modifies this`files, client
      ensures posts == old(posts) && jobs == old(jobs)
      ensures files == old(files) + SavedFiles(filename, safeName)
      ensures client.calls == old(client.calls) + PostCalls(status, StoredImagePath(filename, safeName), files, reply)
      ensures raised <==>
        if StoredImagePath(filename, safeName).Some? && reply.mediaId.None? then true else !reply.statusSucceeds
    {
      var mediaId: Option<string> := None;
      if filename != "" && AllowedFile(filename) {
        files := files + {UploadPath(safeName)};
        var answer := client.MediaPost(UploadPath(safeName), reply.mediaId);
        if answer.None? {
          raised := true;
          return;
        }
        mediaId := answer;
      }
      var ok := client.StatusPost(status, MediaIds(mediaId), reply.statusSucceeds);
      raised := !ok;
    }

    /**
     * The "next up" post `index` shows: the earliest row strictly later than
     * now, or None when there is none.
     */
    method NextUpPost(now: int) returns (next: Option<ScheduledPost>)
      ensures next.Some? ==> next.value in posts && next.value.scheduleTime > now
      ensures next.Some? ==> forall q :: q in posts && q.scheduleTime > now ==> next.value.scheduleTime <= q.scheduleTime
      ensures next.None? <==> forall q :: q in posts ==> q.scheduleTime <= now
    {
      var ordered := SortByTime(posts);
      SameRows(posts, ordered);
      next := FirstFuturePost(ordered, now);
      if next.Some? {
        var k :| 0 <= k < |ordered| && ordered[k] == next.value && ordered[k].scheduleTime > now
                 && forall j :: 0 <= j < k ==> ordered[j].scheduleTime <= now;
        FirstFutureIsEarliest(ordered, k, now);
      }
    }

    /**
     * load_scheduled_posts: for each row later than now, register a job under
     * "post_<id>" unless one with that id exists.
     */
    method LoadScheduledPosts(now: int)
      requires Valid()
      modifies this`jobs
      ensures Valid()
      ensures jobs == Reload(posts, old(jobs), now)
    {
      var i := 0;
      while i < |posts|
        invariant 0 <= i <= |posts|
        invariant jobs == Reload(posts[..i], old(jobs), now)
        invariant JobsBelongToPosts(posts, jobs)
      {
        var post := posts[i];
        assert posts[..i + 1] == posts[..i] + [post];
        if post.scheduleTime > now {
          var key := ReloadKey(post.id);
          if key !in jobs {
            JobsBelongAdd(posts, jobs, i, key);
            var conflict := AddJob(key, JobFor(post));
          }
        }
        i := i + 1;
      }
      assert posts[..|posts|] == posts;
    }

    /**
     * APScheduler firing a date job: the job leaves the store and
     * post_to_mastodon runs with the arguments copied into it.
     */
    method FireJob(client: Client, key: string, reply: Reply) returns (errorLogged: bool)
      requires Valid()
      requires key in jobs
      modifies this`jobs, client
      ensures Valid()
      ensures jobs == old(jobs) - {key}
      ensures client.calls == old(client.calls) + PostCalls(old(jobs)[key].content, old(jobs)[key].imagePath, files, reply)
      ensures exists i :: 0 <= i < |posts| && old(jobs)[key] == JobFor(posts[i])
      ensures errorLogged == LogsError(old(jobs)[key].imagePath, files, reply)
    {
      var job := jobs[key];
      jobs := jobs - {key};
      errorLogged := PostToMastodon(client, job.content, job.imagePath, files, reply);
    }
  }

  /**
   * A scheduled post, a restart that runs load_scheduled_posts before the
   * post's time, then the two date jobs firing: the status goes out twice.
   */
  method RestartPublishesTwice() returns (calls: seq<Call>)
    ensures calls == [StatusPost("hello", None), StatusPost("hello", None)]
  {
    var app := new App.Restore([], map[], {});
    var client := new Client();
    var id := app.ScheduleBranch("hello", "", "", 100);
    var post := ScheduledPost(1, "hello", None, 100);
    assert app.posts == [post];
    KeysDiffer(1, 1);
    app.LoadScheduledPosts(50);
    assert [post][..0] == [];
    assert app.jobs == map[ScheduleKey(1) := JobFor(post), ReloadKey(1) := JobFor(post)];
    var e1 := app.FireJob(client, ScheduleKey(1), Reply(None, true));
    var e2 := app.FireJob(client, ReloadKey(1), Reply(None, true));
    calls := client.calls;
  }
}

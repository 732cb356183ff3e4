/** The backend's rule-based day plan (`generate_day_timeline` in backend/server.py): tasks go
    into a morning, a work and an evening bucket, each bucket is sorted by its "HH:MM" time, and
    the buckets are concatenated in that order. */
module Timeline {
  import opened Wrappers
  import opened Text

  /** The `time` entry of a stored task document: missing, `None`, or a string. */
  datatype TimeField = Absent | Null | Given(text: string)

  /** A task document as the backend stores it: the fields the planning rules read. */
  datatype StoredTask = StoredTask(
    id: string,
    userId: string,
    title: string,
    date: int,
    time: TimeField,
    taskType: string,
    completed: bool)

  datatype Bucket = Morning | Work | Evening

  function Rank(b: Bucket): nat
  {
    match b
    case Morning => 0
    case Work => 1
    case Evening => 2
  }

  /** `task.get('time', '')` taken as a Python truth value: a non-empty time string, or nothing. */
  function TimeText(t: StoredTask): (r: Option<string>)
    ensures r.Some? <==> t.time.Given? && t.time.text != ""
  {
    match t.time
    case Given(s) => if s != "" then Some(s) else None
    case _ => None
  }

  /** The bucket the loop of `generate_day_timeline` appends a task to: exercise and meal tasks
      go to the morning, work and meetings never to the evening, and the evening holds only
      tasks of another type whose time is missing or after "17:00". */
  function BucketOf(t: StoredTask): (b: Bucket)
    ensures t.taskType in {"exercise", "meal"} ==> b == Morning
    ensures t.taskType in {"work", "meeting"} ==> b != Evening
    ensures b == Evening ==> t.taskType !in {"exercise", "meal", "work", "meeting"}
    ensures b == Evening ==> TimeText(t).None? || LexLess("17:00", TimeText(t).value)
  {
    var time := TimeText(t);
    if t.taskType in {"exercise", "meal"} || (time.Some? && LexLess(time.value, "12:00")) then Morning
    else if t.taskType in {"work", "meeting"}
         || (time.Some? && LexLessEq("09:00", time.value) && LexLessEq(time.value, "17:00")) then Work
    else
      assert time.Some? ==> LexLess("17:00", time.value) by {
        if time.Some? {
          EveningIsAfterFive(time.value);
        }
      }
      Evening
  }

  /** A time neither before "12:00" nor from "09:00" to "17:00" is after "17:00". */
  lemma EveningIsAfterFive(v: string)
    requires !LexLess(v, "12:00")
    requires !(LexLessEq("09:00", v) && LexLessEq(v, "17:00"))
    ensures LexLess("17:00", v)
  {
    LexTrichotomy(v, "12:00");
    if LexLess("12:00", v) {
      LexLessTransitive("09:00", "12:00", v);
    }
    LexTrichotomy(v, "17:00");
  }

  /** The sort key `x.get('time', '00:00')`, with a `None` time ordered as a missing one. */
  function SortKey(t: StoredTask): string
  {
    match t.time
    case Given(s) => s
    case _ => "00:00"
  }

  // ---------------------------------------------------------------------------
  // Selecting by bucket and by key

  predicate AllIn(s: seq<StoredTask>, b: Bucket)
  {
    forall i :: 0 <= i < |s| ==> BucketOf(s[i]) == b
  }

  /** The tasks of `s` that fall in bucket `b`, in their order in `s`. */
  function OfBucket(s: seq<StoredTask>, b: Bucket): (r: seq<StoredTask>)
    ensures |r| <= |s|
    ensures AllIn(r, b)
  {
    if s == [] then []
    else
      assert s == [s[0]] + s[1..];
      if BucketOf(s[0]) == b then [s[0]] + OfBucket(s[1..], b) else OfBucket(s[1..], b)
  }

  /** The tasks of `s` whose sort key is `k`, in their order in `s`. */
  function WithKey(s: seq<StoredTask>, k: string): seq<StoredTask>
  {
    if s == [] then []
    else if SortKey(s[0]) == k then [s[0]] + WithKey(s[1..], k)
    else WithKey(s[1..], k)
  }

  lemma {:induction false} OfBucketConcat(a: seq<StoredTask>, c: seq<StoredTask>, b: Bucket)
    ensures OfBucket(a + c, b) == OfBucket(a, b) + OfBucket(c, b)
  {
    if a == [] {
      assert a + c == c;
    } else {
      assert (a + c)[1..] == a[1..] + c;
      OfBucketConcat(a[1..], c, b);
    }
  }

  lemma {:induction false} OfBucketAllIn(s: seq<StoredTask>, b: Bucket, c: Bucket)
    requires AllIn(s, c)
    ensures OfBucket(s, b) == if b == c then s else []
  {
    if s != [] {
      OfBucketAllIn(s[1..], b, c);
    }
  }

  lemma OfBucketCons(x: StoredTask, rest: seq<StoredTask>, b: Bucket)
    ensures OfBucket([x] + rest, b) == if BucketOf(x) == b then [x] + OfBucket(rest, b) else OfBucket(rest, b)
  {
    assert ([x] + rest)[1..] == rest;
  }

  /** The three buckets split the tasks: together they hold each task exactly once. */
  lemma {:induction false} BucketsPartition(s: seq<StoredTask>)
    ensures multiset(s)
            == multiset(OfBucket(s, Morning)) + multiset(OfBucket(s, Work)) + multiset(OfBucket(s, Evening))
  {
    if s != [] {
      var x, rest := s[0], s[1..];
      BucketsPartition(rest);
      assert s == [x] + rest;
      assert multiset(s) == multiset{x} + multiset(rest);
      OfBucketCons(x, rest, Morning);
      OfBucketCons(x, rest, Work);
      OfBucketCons(x, rest, Evening);
      var m, w, e := OfBucket(rest, Morning), OfBucket(rest, Work), OfBucket(rest, Evening);
      var b := BucketOf(x);
      if b == Morning {
        assert multiset(OfBucket(s, Morning)) == multiset{x} + multiset(m);
        assert OfBucket(s, Work) == w && OfBucket(s, Evening) == e;
      } else if b == Work {
        assert multiset(OfBucket(s, Work)) == multiset{x} + multiset(w);
        assert OfBucket(s, Morning) == m && OfBucket(s, Evening) == e;
      } else {
        assert multiset(OfBucket(s, Evening)) == multiset{x} + multiset(e);
        assert OfBucket(s, Morning) == m && OfBucket(s, Work) == w;
      }
    }
  }

  // ---------------------------------------------------------------------------
  // Sorting one bucket (Python's `list.sort`, which is stable)

  predicate SortedByKey(s: seq<StoredTask>)
  {
    forall i, j :: 0 <= i < j < |s| ==> LexLessEq(SortKey(s[i]), SortKey(s[j]))
  }

  /** Put `x` in front of the first element whose key is not below its own. */
  function Insert(x: StoredTask, s: seq<StoredTask>): (r: seq<StoredTask>)
    ensures multiset(r) == multiset(s) + multiset{x}
    ensures |r| == |s| + 1
  {
    if s == [] then [x]
    else if LexLessEq(SortKey(x), SortKey(s[0])) then [x] + s
    else
      assert s == [s[0]] + s[1..];
      [s[0]] + Insert(x, s[1..])
  }

  /** Stable sort by key: insert each task, from the last to the first, into the sorted rest. */
  function SortByTime(s: seq<StoredTask>): (r: seq<StoredTask>)
    ensures multiset(r) == multiset(s)
    ensures |r| == |s|
  {
    if s == [] then []
    else
      assert s == [s[0]] + s[1..];
      Insert(s[0], SortByTime(s[1..]))
  }

  lemma InsertSorted(x: StoredTask, s: seq<StoredTask>)
    requires SortedByKey(s)
    ensures SortedByKey(Insert(x, s))
    decreases |s|
  {
    if s == [] {
    } else if LexLessEq(SortKey(x), SortKey(s[0])) {
      var r := [x] + s;
      forall i, j | 0 <= i < j < |r|
        ensures LexLessEq(SortKey(r[i]), SortKey(r[j]))
      {
        if i == 0 && j > 1 {
          LexLessEqTransitive(SortKey(x), SortKey(s[0]), SortKey(s[j - 1]));
        }
      }
    } else {
      LexLessEqTotal(SortKey(x), SortKey(s[0]));
      InsertSorted(x, s[1..]);
      var rest := Insert(x, s[1..]);
      var r := [s[0]] + rest;
      forall i, j | 0 <= i < j < |r|
        ensures LexLessEq(SortKey(r[i]), SortKey(r[j]))
      {
        if i == 0 {
          var y := r[j];
          assert y in multiset(rest);
          assert y == x || y in multiset(s[1..]);
          if y != x {
            var k :| 0 <= k < |s[1..]| && s[1..][k] == y;
            assert s[k + 1] == y;
          }
        }
      }
    }
  }

  lemma {:induction false} SortByTimeSorted(s: seq<StoredTask>)
    ensures SortedByKey(SortByTime(s))
  {
    if s != [] {
      SortByTimeSorted(s[1..]);
      InsertSorted(s[0], SortByTime(s[1..]));
    }
  }

  /** Inserting `x` into a sorted list puts it before every element with the same key. */
  lemma {:induction false} InsertStable(x: StoredTask, s: seq<StoredTask>, k: string)
    requires SortedByKey(s)
    ensures WithKey(Insert(x, s), k) == if SortKey(x) == k then [x] + WithKey(s, k) else WithKey(s, k)
  {
    if s != [] && !LexLessEq(SortKey(x), SortKey(s[0])) {
      LexLessEqTotal(SortKey(x), SortKey(s[0]));
      assert SortedByKey(s[1..]) by {
        forall i, j | 0 <= i < j < |s[1..]|
          ensures LexLessEq(SortKey(s[1..][i]), SortKey(s[1..][j]))
        {
          assert s[1..][i] == s[i + 1] && s[1..][j] == s[j + 1];
        }
      }
      InsertStable(x, s[1..], k);
      if SortKey(x) == k {
        assert SortKey(s[0]) != k;
      }
    }
  }

  /** Sorting keeps tasks with equal keys in their input order. */
  lemma {:induction false} SortByTimeStable(s: seq<StoredTask>, k: string)
    ensures WithKey(SortByTime(s), k) == WithKey(s, k)
  {
    if s != [] {
      SortByTimeStable(s[1..], k);
      SortByTimeSorted(s[1..]);
      InsertStable(s[0], SortByTime(s[1..]), k);
    }
  }

  lemma SortByTimeKeepsBucket(s: seq<StoredTask>, b: Bucket)
    requires AllIn(s, b)
    ensures AllIn(SortByTime(s), b)
  {
    var r := SortByTime(s);
    forall i | 0 <= i < |r|
      ensures BucketOf(r[i]) == b
    {
      assert r[i] in multiset(s);
      var k :| 0 <= k < |s| && s[k] == r[i];
    }
  }

  // ---------------------------------------------------------------------------
  // The timeline

  /** The day plan: each bucket sorted by time, morning then work then evening. It holds exactly
      the input tasks, each as often as in the input. */
  function DayTimeline(tasks: seq<StoredTask>): (r: seq<StoredTask>)
    ensures multiset(r) == multiset(tasks)
    ensures |r| == |tasks|
  {
    BucketsPartition(tasks);
    var r := SortByTime(OfBucket(tasks, Morning)) + SortByTime(OfBucket(tasks, Work))
             + SortByTime(OfBucket(tasks, Evening));
    assert |r| == |multiset(r)|;
    r
  }

  /** `generate_day_timeline`: one pass appending each task to its bucket, a sort of each bucket,
      and the three buckets appended to the result in order. */
  method GenerateDayTimeline(tasks: seq<StoredTask>) returns (timeline: seq<StoredTask>)
    ensures timeline == DayTimeline(tasks)
  {
    var morning, work, evening := [], [], [];
    for i := 0 to |tasks|
      invariant morning == OfBucket(tasks[..i], Morning)
      invariant work == OfBucket(tasks[..i], Work)
      invariant evening == OfBucket(tasks[..i], Evening)
    {
      var task := tasks[i];
      var timeStr := TimeText(task);
      assert tasks[..i + 1] == tasks[..i] + [task];
      OfBucketConcat(tasks[..i], [task], Morning);
      OfBucketConcat(tasks[..i], [task], Work);
      OfBucketConcat(tasks[..i], [task], Evening);
      if task.taskType in {"exercise", "meal"} || (timeStr.Some? && LexLess(timeStr.value, "12:00")) {
        morning := morning + [task];
      } else if task.taskType in {"work", "meeting"}
             || (timeStr.Some? && LexLessEq("09:00", timeStr.value) && LexLessEq(timeStr.value, "17:00")) {
        work := work + [task];
      } else {
        evening := evening + [task];
      }
    }
    assert tasks[..|tasks|] == tasks;
    morning := SortByTime(morning);
    work := SortByTime(work);
    evening := SortByTime(evening);
    timeline := [];
    timeline := timeline + morning;
    timeline := timeline + work;
    timeline := timeline + evening;
  }

  /** Splitting a morning part, a work part and an evening part by bucket gives back each part. */
  lemma ThreePartsSplit(m: seq<StoredTask>, w: seq<StoredTask>, e: seq<StoredTask>, b: Bucket)
    requires AllIn(m, Morning) && AllIn(w, Work) && AllIn(e, Evening)
    ensures OfBucket(m + w + e, b) == match b case Morning => m case Work => w case Evening => e
  {
    OfBucketConcat(m + w, e, b);
    OfBucketConcat(m, w, b);
    OfBucketAllIn(m, b, Morning);
    OfBucketAllIn(w, b, Work);
    OfBucketAllIn(e, b, Evening);
    var pm, pw, pe := OfBucket(m, b), OfBucket(w, b), OfBucket(e, b);
    if b == Morning {
      assert pm == m && pw == [] && pe == [];
      assert pm + pw + pe == m;
    } else if b == Work {
      assert pm == [] && pw == w && pe == [];
      assert pm + pw + pe == w;
    } else {
      assert pm == [] && pw == [] && pe == e;
      assert pm + pw + pe == e;
    }
  }

  /** Within the timeline, splitting by bucket gives back each sorted bucket. */
  lemma TimelineBuckets(tasks: seq<StoredTask>, b: Bucket)
    ensures OfBucket(DayTimeline(tasks), b) == SortByTime(OfBucket(tasks, b))
  {
    SortByTimeKeepsBucket(OfBucket(tasks, Morning), Morning);
    SortByTimeKeepsBucket(OfBucket(tasks, Work), Work);
    SortByTimeKeepsBucket(OfBucket(tasks, Evening), Evening);
    ThreePartsSplit(SortByTime(OfBucket(tasks, Morning)), SortByTime(OfBucket(tasks, Work)), SortByTime(OfBucket(tasks, Evening)), b);
  }

  /** Appending a morning part, a work part and an evening part keeps the buckets in that order. */
  lemma ThreePartsOrdered(m: seq<StoredTask>, w: seq<StoredTask>, e: seq<StoredTask>)
    requires AllIn(m, Morning) && AllIn(w, Work) && AllIn(e, Evening)
    ensures forall i, j :: 0 <= i < j < |m + w + e| ==> Rank(BucketOf((m + w + e)[i])) <= Rank(BucketOf((m + w + e)[j]))
  {
    var t := m + w + e;
    forall i | 0 <= i < |t|
      ensures Rank(BucketOf(t[i])) == if i < |m| then 0 else if i < |m| + |w| then 1 else 2
    {
      if i < |m| {
        assert t[i] == m[i];
      } else if i < |m| + |w| {
        assert t[i] == w[i - |m|];
      } else {
        assert t[i] == e[i - |m| - |w|];
      }
    }
  }

  /** Every morning task comes before every work task, which comes before every evening task. */
  lemma TimelineBucketOrder(tasks: seq<StoredTask>)
    ensures forall i, j :: 0 <= i < j < |DayTimeline(tasks)| ==>
              Rank(BucketOf(DayTimeline(tasks)[i])) <= Rank(BucketOf(DayTimeline(tasks)[j]))
  {
    SortByTimeKeepsBucket(OfBucket(tasks, Morning), Morning);
    SortByTimeKeepsBucket(OfBucket(tasks, Work), Work);
    SortByTimeKeepsBucket(OfBucket(tasks, Evening), Evening);
    ThreePartsOrdered(SortByTime(OfBucket(tasks, Morning)), SortByTime(OfBucket(tasks, Work)), SortByTime(OfBucket(tasks, Evening)));
  }

  /** Appending three sorted buckets keeps each bucket sorted. */
  lemma ThreePartsSorted(m: seq<StoredTask>, w: seq<StoredTask>, e: seq<StoredTask>)
    requires AllIn(m, Morning) && AllIn(w, Work) && AllIn(e, Evening)
    requires SortedByKey(m) && SortedByKey(w) && SortedByKey(e)
    ensures forall i, j :: 0 <= i < j < |m + w + e| && BucketOf((m + w + e)[i]) == BucketOf((m + w + e)[j])
              ==> LexLessEq(SortKey((m + w + e)[i]), SortKey((m + w + e)[j]))
  {
    var t := m + w + e;
    forall i | 0 <= i < |t|
      ensures Rank(BucketOf(t[i])) == if i < |m| then 0 else if i < |m| + |w| then 1 else 2
      ensures i < |m| ==> t[i] == m[i]
      ensures |m| <= i < |m| + |w| ==> t[i] == w[i - |m|]
      ensures |m| + |w| <= i ==> t[i] == e[i - |m| - |w|]
    {
      if i < |m| {
        assert t[i] == m[i];
      } else if i < |m| + |w| {
        assert t[i] == w[i - |m|];
      } else {
        assert t[i] == e[i - |m| - |w|];
      }
    }
  }

  /** Within one bucket the times never decrease along the timeline. */
  lemma TimelineSortedWithinBucket(tasks: seq<StoredTask>)
    ensures forall i, j :: 0 <= i < j < |DayTimeline(tasks)| && BucketOf(DayTimeline(tasks)[i]) == BucketOf(DayTimeline(tasks)[j])
              ==> LexLessEq(SortKey(DayTimeline(tasks)[i]), SortKey(DayTimeline(tasks)[j]))
  {
    SortByTimeKeepsBucket(OfBucket(tasks, Morning), Morning);
    SortByTimeKeepsBucket(OfBucket(tasks, Work), Work);
    SortByTimeKeepsBucket(OfBucket(tasks, Evening), Evening);
    SortByTimeSorted(OfBucket(tasks, Morning));
    SortByTimeSorted(OfBucket(tasks, Work));
    SortByTimeSorted(OfBucket(tasks, Evening));
    ThreePartsSorted(SortByTime(OfBucket(tasks, Morning)), SortByTime(OfBucket(tasks, Work)), SortByTime(OfBucket(tasks, Evening)));
  }

  /** Tasks of one bucket with equal times keep their input order. */
  lemma TimelineStable(tasks: seq<StoredTask>, b: Bucket, k: string)
    ensures WithKey(OfBucket(DayTimeline(tasks), b), k) == WithKey(OfBucket(tasks, b), k)
  {
    TimelineBuckets(tasks, b);
    SortByTimeStable(OfBucket(tasks, b), k);
  }

  /** Exercise and meal tasks, and any task with a time before "12:00", are planned in the morning. */
  lemma MorningRule(t: StoredTask)
    ensures t.taskType == "exercise" || t.taskType == "meal" ==> BucketOf(t) == Morning
    ensures TimeText(t).Some? && LexLess(TimeText(t).value, "12:00") ==> BucketOf(t) == Morning
  {
  }

  /** A task that is neither work nor a meeting reaches the work bucket only by a time from
      "12:00" to "17:00": a time from "09:00" to "11:59" already went to the morning. */
  lemma WorkByTimeAlone(t: StoredTask)
    requires BucketOf(t) == Work && t.taskType !in {"work", "meeting"}
    ensures TimeText(t).Some?
    ensures LexLessEq("12:00", TimeText(t).value) && LexLessEq(TimeText(t).value, "17:00")
  {
    var s := TimeText(t).value;
    LexTrichotomy(s, "12:00");
  }

  // ---------------------------------------------------------------------------
  // The sort as written

  datatype PyError = TypeError

  predicate HasNullTime(s: seq<StoredTask>)
  {
    exists i :: 0 <= i < |s| && s[i].time.Null?
  }

  /** `task_list.sort(key=lambda x: x.get('time', '00:00'))` as written: a stored task whose time
      is `None` has the key `None`, and Python 3 raises TypeError as soon as the sort compares it,
      which it does for every element of a list of two or more. */
  function SortBucketAsWritten(bucket: seq<StoredTask>): (r: Result<seq<StoredTask>, PyError>)
    ensures r.Err? <==> |bucket| >= 2 && HasNullTime(bucket)
  {
    if |bucket| >= 2 && HasNullTime(bucket) then Err(TypeError) else Ok(SortByTime(bucket))
  }

  /** `generate_day_timeline` as written: it fails when any bucket's sort raises. */
  function DayTimelineAsWritten(tasks: seq<StoredTask>): (r: Result<seq<StoredTask>, PyError>)
    ensures r.Ok? ==> multiset(r.value) == multiset(tasks)
  {
    BucketsPartition(tasks);
    var m := SortBucketAsWritten(OfBucket(tasks, Morning));
    var w := SortBucketAsWritten(OfBucket(tasks, Work));
    var e := SortBucketAsWritten(OfBucket(tasks, Evening));
    if m.Err? || w.Err? || e.Err? then Err(TypeError) else Ok(m.value + w.value + e.value)
  }

  /** Where the code as written returns a timeline, it is the one modelled here; it fails
      exactly when some bucket of two or more tasks holds a task whose time is `None`. */
  lemma AsWrittenAgreesWhenItSucceeds(tasks: seq<StoredTask>)
    ensures DayTimelineAsWritten(tasks).Ok? ==> DayTimelineAsWritten(tasks).value == DayTimeline(tasks)
    ensures DayTimelineAsWritten(tasks).Err? <==>
              exists b: Bucket :: |OfBucket(tasks, b)| >= 2 && HasNullTime(OfBucket(tasks, b))
  {
    var m, w, e := OfBucket(tasks, Morning), OfBucket(tasks, Work), OfBucket(tasks, Evening);
    if DayTimelineAsWritten(tasks).Err? {
      if SortBucketAsWritten(m).Err? {
        assert |OfBucket(tasks, Morning)| >= 2 && HasNullTime(OfBucket(tasks, Morning));
      } else if SortBucketAsWritten(w).Err? {
        assert |OfBucket(tasks, Work)| >= 2 && HasNullTime(OfBucket(tasks, Work));
      } else {
        assert |OfBucket(tasks, Evening)| >= 2 && HasNullTime(OfBucket(tasks, Evening));
      }
    }
    if exists b: Bucket :: |OfBucket(tasks, b)| >= 2 && HasNullTime(OfBucket(tasks, b)) {
      var b: Bucket :| |OfBucket(tasks, b)| >= 2 && HasNullTime(OfBucket(tasks, b));
      assert SortBucketAsWritten(OfBucket(tasks, b)).Err?;
    }
  }

  /** Two all-day tasks of type "general" on one day (time `None`, as the task editor saves an
      all-day task) make the code as written raise, while the corrected key plans both. */
  lemma TwoAllDayTasksRaise(a: StoredTask, b: StoredTask)
    requires a.time == Null && b.time == Null && a.taskType == "general" && b.taskType == "general"
    ensures DayTimelineAsWritten([a, b]) == Err(TypeError)
    ensures DayTimeline([a, b]) == [a, b]
  {
    assert BucketOf(a) == Evening && BucketOf(b) == Evening;
    assert OfBucket([a, b], Evening) == [a, b] by {
      assert [a, b][1..] == [b];
    }
    assert [a, b][0].time.Null?;
    assert OfBucket([a, b], Morning) == [] && OfBucket([a, b], Work) == [] by {
      assert [a, b][1..] == [b];
    }
    assert SortKey(a) == SortKey(b);
    assert SortByTime([b]) == [b];
    assert SortByTime([a, b]) == Insert(a, [b]) == [a, b] by {
      assert [a, b][1..] == [b];
    }
  }
}
